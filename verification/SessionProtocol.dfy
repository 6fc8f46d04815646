/**
 * Sign-ins of one browser: several tabs, one cookie jar, a server that rotates
 * refresh rows, and replies that may come late. Every request, its handling by
 * the server and the arrival of its reply are separate steps.
 */
module SessionProtocol {
  import opened Options
  import opened SessionRefresh

  type TabId = int
  /** A refresh token's identity: the key of its row. */
  type Secret = int

  /** A refresh row: whose it is and, for a sign-in into a hotel, on whose behalf. */
  datatype Row = Row(tenant: Name, user: Name, imp: Option<Name>, revoked: bool)

  datatype Reply = Granted(secret: Secret, token: Token) | Denied(status: Option<int>)

  /** A tab's refresh on the wire: its endpoint, the cookie that was in the jar when it left, and the reply once made. */
  datatype Call = Call(scope: Scope, cookie: Option<Secret>, reply: Option<Reply>)

  /** The reply to a sign-in or a sign-out: what it does to the jar and to the tab. */
  datatype Mail = Mail(tab: TabId, scope: Option<Scope>, secret: Option<Secret>, token: Option<Token>)

  datatype State = State(tabs: map<TabId, Tab>, calls: map<TabId, Call>, jar: map<Scope, Secret>,
                         rows: map<Secret, Row>, mail: seq<Mail>)

  const START := State(map[], map[], map[], map[], [])

  datatype Door =
    | Password(user: Name, tenant: Name)
    | DispatcherPanel(user: Name, tenant: Name)
    | HotelLink(dispatcher: Name, hotel: Name, hotelKnown: bool)
    | ExitImpersonation(home: Name)
    | PanelHotel(admin: Name, hotel: Name)

  datatype Event =
    | OpenTab(tab: TabId)
    | BeginRefresh(tab: TabId)
    | ServeRefresh(tab: TabId, userActive: bool, actorActive: bool, secret: Secret, signature: string)
    | LoseRefresh(tab: TabId, status: Option<int>)
    | FinishRefresh(tab: TabId)
    | SignIn(tab: TabId, door: Door, secret: Secret, signature: string)
    | SignOut(tab: TabId, scope: Scope)
    | Deliver(index: nat)
    | Revoke(secret: Secret)
    | ForgetCookie(scope: Scope)

  // ── The server ───────────────────────────────────────────────────────────

  function SessionOfRow(r: Row): Session {
    Session(r.tenant, r.user, r.imp)
  }

  /** A hotel's endpoints take sign-ins into that hotel; the common ones take a person's own. */
  predicate Fits(scope: Scope, r: Row) {
    if scope.Hotel? then r.imp.Some? && r.tenant == scope.id else r.imp.None?
  }

  /** The row a refresh may rotate. */
  predicate Refreshable(rows: map<Secret, Row>, c: Call, userActive: bool) {
    c.cookie.Some? && c.cookie.value in rows && !rows[c.cookie.value].revoked && Fits(c.scope, rows[c.cookie.value]) && userActive
  }

  /** Rotation: the old row is revoked, the new one continues the same person, hotel and "on behalf of". */
  function Rotated(r: Row): Row {
    Row(r.tenant, if r.imp.Some? then r.imp.value else r.user, r.imp, false)
  }

  /** What a refresh does to the rows and what it answers; every refusal reaches the tab as 401. */
  function Rotate(rows: map<Secret, Row>, c: Call, userActive: bool, actorActive: bool, secret: Secret, signature: string)
    : (map<Secret, Row>, Reply)
  {
    if !Refreshable(rows, c, userActive) then (rows, Denied(Some(401)))
    else
      var was := rows[c.cookie.value];
      var revoked := rows[c.cookie.value := was.(revoked := true)];
      if was.imp.Some? && !actorActive then (revoked, Denied(Some(401)))
      else (revoked[secret := Rotated(was)], Granted(secret, Token(SessionOfRow(Rotated(was)), signature)))
  }

  function Serve(s: State, tab: TabId, c: Call, userActive: bool, actorActive: bool, secret: Secret, signature: string): State {
    var (rows, reply) := Rotate(s.rows, c, userActive, actorActive, secret, signature);
    s.(rows := rows, calls := s.calls[tab := c.(reply := Some(reply))])
  }

  /** The row each way in creates. */
  function DoorRow(door: Door, held: Option<Token>): Option<Row> {
    match door
    case Password(user, tenant) => Some(Row(tenant, user, None, false))
    case DispatcherPanel(user, tenant) => Some(Row(tenant, user, None, false))
    case HotelLink(dispatcher, hotel, _) => Some(Row(hotel, dispatcher, Some(dispatcher), false))
    case ExitImpersonation(home) =>
      if held.Some? && held.value.session.imp.Some? then Some(Row(home, held.value.session.imp.value, None, false)) else None
    case PanelHotel(admin, hotel) => Some(Row(hotel, admin, Some(admin), false))
  }

  /** The cookie each way in sets, if any. */
  function DoorScope(door: Door): Option<Scope> {
    match door
    case HotelLink(_, hotel, hotelKnown) => if hotelKnown then Some(Hotel(hotel)) else None
    case PanelHotel(_, _) => None
    case _ => Some(Common)
  }

  function Enter(s: State, tab: TabId, door: Door, secret: Secret, signature: string): State
    requires tab in s.tabs
  {
    var row := DoorRow(door, s.tabs[tab].token);
    if row.None? then s
    else
      var token := Token(SessionOfRow(row.value), signature);
      if door.PanelHotel? then s.(mail := s.mail + [Mail(tab, None, None, Some(token))])
      else s.(rows := s.rows[secret := row.value], mail := s.mail + [Mail(tab, DoorScope(door), Some(secret), Some(token))])
  }

  // ── The browser ──────────────────────────────────────────────────────────

  function CookieSent(s: State, scope: Scope): Option<Secret> {
    if scope in s.jar then Some(s.jar[scope]) else None
  }

  function Begun(s: State, tab: TabId): State
    requires tab in s.tabs
  {
    var (t, started) := Begin(s.tabs[tab]);
    match started
    case Post(scope) => s.(tabs := s.tabs[tab := t], calls := s.calls[tab := Call(scope, CookieSent(s, scope), None)])
    case _ => s
  }

  /** The reply arrives: the browser stores the cookie, then the tab's handler runs. */
  function Finished(s: State, tab: TabId, c: Call): State
    requires tab in s.tabs && s.tabs[tab].inFlight.Some? && c.reply.Some?
  {
    var rest := s.(calls := s.calls - {tab});
    match c.reply.value
    case Granted(secret, token) => rest.(jar := s.jar[c.scope := secret], tabs := s.tabs[tab := Resolve(s.tabs[tab], token).0])
    case Denied(status) => rest.(tabs := s.tabs[tab := Reject(s.tabs[tab], status).0])
  }

  function Delivered(s: State, m: Mail): State {
    var jar := if m.scope.None? then s.jar
               else if m.secret.Some? then s.jar[m.scope.value := m.secret.value]
               else s.jar - {m.scope.value};
    s.(jar := jar, tabs := if m.tab in s.tabs then s.tabs[m.tab := SetToken(s.tabs[m.tab], m.token)] else s.tabs)
  }

  /** A sign-out revokes the row its cookie names, if there is one. */
  function RowsLeft(rows: map<Secret, Row>, cookie: Option<Secret>): map<Secret, Row> {
    if cookie.Some? && cookie.value in rows then rows[cookie.value := rows[cookie.value].(revoked := true)] else rows
  }

  /** The sign-out endpoint revokes the row of its own cookie and clears it. */
  function LeftBehind(s: State, tab: TabId, scope: Scope): State {
    s.(rows := RowsLeft(s.rows, CookieSent(s, scope)), mail := s.mail + [Mail(tab, Some(scope), None, None)])
  }

  /** An event that is not possible yet changes nothing. */
  function Step(s: State, e: Event): State {
    match e
    case OpenTab(tab) => if tab in s.tabs then s else s.(tabs := s.tabs[tab := NEW_TAB])
    case BeginRefresh(tab) => if tab in s.tabs then Begun(s, tab) else s
    case ServeRefresh(tab, userActive, actorActive, secret, signature) =>
      if tab in s.calls && s.calls[tab].reply.None? && secret !in s.rows
      then Serve(s, tab, s.calls[tab], userActive, actorActive, secret, signature) else s
    case LoseRefresh(tab, status) =>
      if tab in s.calls then s.(calls := s.calls[tab := s.calls[tab].(reply := Some(Denied(status)))]) else s
    case FinishRefresh(tab) =>
      if tab in s.calls && tab in s.tabs && s.tabs[tab].inFlight.Some? && s.calls[tab].reply.Some?
      then Finished(s, tab, s.calls[tab]) else s
    case SignIn(tab, door, secret, signature) =>
      if tab in s.tabs && secret !in s.rows then Enter(s, tab, door, secret, signature) else s
    case SignOut(tab, scope) => if tab in s.tabs then LeftBehind(s, tab, scope) else s
    case Deliver(index) =>
      if index < |s.mail| then Delivered(s, s.mail[index]).(mail := s.mail[..index] + s.mail[index+1..]) else s
    case Revoke(secret) => if secret in s.rows then s.(rows := s.rows[secret := s.rows[secret].(revoked := true)]) else s
    case ForgetCookie(scope) => s.(jar := s.jar - {scope})
  }

  function Run(s: State, events: seq<Event>): State {
    if events == [] then s else Step(Run(s, events[..|events|-1]), events[|events|-1])
  }

  // ── The invariant ────────────────────────────────────────────────────────

  ghost predicate Backed(s: State, scope: Scope, secret: Secret) {
    secret in s.rows && Fits(scope, s.rows[secret])
  }

  ghost predicate RowsOk(s: State) {
    forall secret :: secret in s.rows && s.rows[secret].imp.Some? ==> s.rows[secret].user == s.rows[secret].imp.value
  }

  ghost predicate JarOk(s: State) {
    forall scope :: scope in s.jar ==> Backed(s, scope, s.jar[scope])
  }

  ghost predicate MailOk(s: State) {
    forall m :: m in s.mail && m.scope.Some? && m.secret.Some? ==> Backed(s, m.scope.value, m.secret.value)
  }

  ghost predicate CallOk(s: State, t: Tab, c: Call) {
    && t.inFlight.Some?
    && c.scope == CookieScope(SessionOf(t.inFlight.value.token))
    && (c.cookie.Some? ==> Backed(s, c.scope, c.cookie.value))
    && (c.reply.Some? && c.reply.value.Granted? ==>
          Backed(s, c.scope, c.reply.value.secret) && c.reply.value.token.session == SessionOfRow(s.rows[c.reply.value.secret]))
  }

  ghost predicate CallsOk(s: State) {
    forall tab :: tab in s.calls ==> tab in s.tabs && CallOk(s, s.tabs[tab], s.calls[tab])
  }

  ghost predicate TabsOk(s: State) {
    forall tab :: tab in s.tabs ==> Valid(s.tabs[tab]) && (s.tabs[tab].inFlight.Some? ==> tab in s.calls)
  }

  ghost predicate Inv(s: State) {
    RowsOk(s) && JarOk(s) && MailOk(s) && CallsOk(s) && TabsOk(s)
  }

  /** Rows are only added or revoked. */
  ghost predicate RowsGrow(s: State, t: State) {
    forall secret :: secret in s.rows ==>
      secret in t.rows && (t.rows[secret] == s.rows[secret] || t.rows[secret] == s.rows[secret].(revoked := true))
  }

  lemma StepGrows(s: State, e: Event)
    ensures RowsGrow(s, Step(s, e))
  {
  }

  lemma BackedGrows(s: State, t: State, scope: Scope, secret: Secret)
    requires RowsGrow(s, t) && Backed(s, scope, secret)
    ensures Backed(t, scope, secret) && SessionOfRow(t.rows[secret]) == SessionOfRow(s.rows[secret])
  {
  }

  lemma CallGrows(s: State, u: State, t: Tab, c: Call)
    requires RowsGrow(s, u) && CallOk(s, t, c)
    ensures CallOk(u, t, c)
  {
    if c.cookie.Some? {
      BackedGrows(s, u, c.scope, c.cookie.value);
    }
    if c.reply.Some? && c.reply.value.Granted? {
      BackedGrows(s, u, c.scope, c.reply.value.secret);
    }
  }

  lemma StepRows(s: State, e: Event)
    requires Inv(s)
    ensures RowsOk(Step(s, e))
  {
  }

  lemma StepJar(s: State, e: Event)
    requires Inv(s)
    ensures JarOk(Step(s, e))
  {
    var u := Step(s, e);
    StepGrows(s, e);
    forall scope | scope in u.jar ensures Backed(u, scope, u.jar[scope]) {
      if scope in s.jar {
        BackedGrows(s, u, scope, s.jar[scope]);
      }
      if e.Deliver? && e.index < |s.mail| {
        assert s.mail[e.index] in s.mail;
      }
      if e.FinishRefresh? && e.tab in s.calls {
        assert CallOk(s, s.tabs[e.tab], s.calls[e.tab]);
      }
    }
  }

  lemma StepMail(s: State, e: Event)
    requires Inv(s)
    ensures MailOk(Step(s, e))
  {
    var u := Step(s, e);
    StepGrows(s, e);
    forall m | m in u.mail && m.scope.Some? && m.secret.Some? ensures Backed(u, m.scope.value, m.secret.value) {
      if m in s.mail {
        BackedGrows(s, u, m.scope.value, m.secret.value);
      }
    }
  }

  lemma ServeCall(s: State, e: Event)
    requires Inv(s) && e.ServeRefresh? && e.tab in s.calls && s.calls[e.tab].reply.None? && e.secret !in s.rows
    ensures e.tab in s.tabs && CallOk(Step(s, e), s.tabs[e.tab], Step(s, e).calls[e.tab])
  {
    StepGrows(s, e);
    CallGrows(s, Step(s, e), s.tabs[e.tab], s.calls[e.tab]);
  }

  lemma StepCalls(s: State, e: Event)
    requires Inv(s)
    ensures CallsOk(Step(s, e))
  {
    var u := Step(s, e);
    StepGrows(s, e);
    forall tab | tab in u.calls ensures tab in u.tabs && CallOk(u, u.tabs[tab], u.calls[tab]) {
      if tab in s.calls {
        CallGrows(s, u, s.tabs[tab], s.calls[tab]);
        if e.ServeRefresh? && e.tab == tab && s.calls[tab].reply.None? && e.secret !in s.rows {
          ServeCall(s, e);
        }
      } else {
        assert e == BeginRefresh(tab);
      }
    }
  }

  lemma StepTabs(s: State, e: Event)
    requires Inv(s)
    ensures TabsOk(Step(s, e))
  {
  }

  lemma StepKeepsInv(s: State, e: Event)
    requires Inv(s)
    ensures Inv(Step(s, e))
  {
    StepRows(s, e);
    StepJar(s, e);
    StepMail(s, e);
    StepCalls(s, e);
    StepTabs(s, e);
  }

  /** In every interleaving a hotel's cookie names a sign-in into that hotel, and the common cookie a person's own. */
  lemma {:induction false} CookiesNameOwnRows(events: seq<Event>)
    ensures Inv(Run(START, events))
    ensures var s := Run(START, events);
            forall scope :: scope in s.jar ==>
              s.jar[scope] in s.rows && match scope
                                        case Common => s.rows[s.jar[scope]].imp.None?
                                        case Hotel(id) => s.rows[s.jar[scope]].imp.Some? && s.rows[s.jar[scope]].tenant == id
  {
    if events != [] {
      CookiesNameOwnRows(events[..|events|-1]);
      StepKeepsInv(Run(START, events[..|events|-1]), events[|events|-1]);
    }
  }

  // ── What signing in, refreshing and signing out achieve ──────────────────

  lemma RunTwo(s: State, e1: Event, e2: Event)
    ensures Run(s, [e1, e2]) == Step(Step(s, e1), e2)
  {
    assert [e1, e2][..1] == [e1] && [e1][..0] == [];
    assert Run(s, []) == s && Run(s, [e1]) == Step(s, e1);
  }

  lemma RunThree(s: State, e1: Event, e2: Event, e3: Event)
    ensures Run(s, [e1, e2, e3]) == Step(Step(Step(s, e1), e2), e3)
  {
    assert [e1, e2, e3][..2] == [e1, e2];
    RunTwo(s, e1, e2);
  }

  /**
   * The reply to a refresh was a grant: the jar names the granted row, which stands behind the granted token; a
   * tab whose token and session are still those the refresh left with has the granted token and may refresh again.
   */
  lemma GrantArrives(s: State, tab: TabId)
    requires Inv(s) && tab in s.calls && s.calls[tab].reply.Some? && s.calls[tab].reply.value.Granted?
    ensures var c, u := s.calls[tab], Step(s, FinishRefresh(tab));
            var granted := c.reply.value;
            && tab in s.tabs && tab in u.tabs && tab !in u.calls && u.rows == s.rows
            && u.jar == s.jar[c.scope := granted.secret]
            && granted.secret in u.rows && SessionOfRow(u.rows[granted.secret]) == granted.token.session
            && u.tabs[tab].inFlight.None?
            && var t := s.tabs[tab];
               && (t.token != t.inFlight.value.token ==> u.tabs[tab].token == t.token)
               && (t.token == t.inFlight.value.token && (t.token.None? || t.token.value.session == granted.token.session) ==>
                     u.tabs[tab].token == Some(granted.token))
  {
    assert CallOk(s, s.tabs[tab], s.calls[tab]);
    RenewedTokenIsTaken(s.tabs[tab], s.calls[tab].reply.value.token);
  }

  /** The endpoint a tab refreshes on: its hotel's when it works there on somebody's behalf, else the common one. */
  function Endpoint(t: Tab): Scope {
    if t.token.Some? && t.token.value.session.imp.Some? then Hotel(t.token.value.session.tid) else Common
  }

  /** A refresh leaves with the cookie of its endpoint; while one is under way another asks for nothing. */
  lemma OneRefreshAtATime(s: State, tab: TabId)
    requires Inv(s) && tab in s.tabs
    ensures var t, u := s.tabs[tab], Step(s, BeginRefresh(tab));
            && (t.inFlight.Some? || IsStopped(t) ==> u == s)
            && (t.inFlight.None? && !IsStopped(t) ==>
                  && tab !in s.calls
                  && u.calls == s.calls[tab := Call(Endpoint(t), if Endpoint(t) in s.jar then Some(s.jar[Endpoint(t)]) else None, None)]
                  && u.tabs == s.tabs[tab := t.(inFlight := Some(Held(t.token)))]
                  && u.jar == s.jar && u.rows == s.rows && u.mail == s.mail)
  {
    if tab in s.calls {
      assert CallOk(s, s.tabs[tab], s.calls[tab]);
    }
  }

  /**
   * A refresh that nothing disturbs: the live row its cookie names is revoked and followed by one for the same
   * hotel, person and "on behalf of"; the jar names the new row; a tab of that session, or of none, has the new
   * token and is ready to refresh again; a tab of another session keeps its token and is stopped on it.
   */
  lemma RefreshSucceeds(s: State, tab: TabId, secret: Secret, signature: string)
    requires Inv(s) && tab in s.tabs && s.tabs[tab].inFlight.None? && !IsStopped(s.tabs[tab]) && secret !in s.rows
    requires Endpoint(s.tabs[tab]) in s.jar && !s.rows[s.jar[Endpoint(s.tabs[tab])]].revoked
    ensures var u := Run(s, [BeginRefresh(tab), ServeRefresh(tab, true, true, secret, signature), FinishRefresh(tab)]);
            var t, used := s.tabs[tab], s.jar[Endpoint(s.tabs[tab])];
            var renewed := Token(SessionOfRow(s.rows[used]), signature);
            && u.rows == s.rows[used := s.rows[used].(revoked := true)][secret := s.rows[used]]
            && u.jar == s.jar[Endpoint(t) := secret]
            && tab in u.tabs && u.tabs[tab].inFlight.None?
            && (t.token.None? || t.token.value.session == renewed.session ==> u.tabs[tab].token == Some(renewed))
            && (t.token.Some? && t.token.value.session != renewed.session ==> u.tabs[tab].token == t.token && IsStopped(u.tabs[tab]))
  {
    var e1, e2, e3 := BeginRefresh(tab), ServeRefresh(tab, true, true, secret, signature), FinishRefresh(tab);
    RunThree(s, e1, e2, e3);
    OneRefreshAtATime(s, tab);
    StepKeepsInv(s, e1);
    var s1 := Step(s, e1);
    var used := s.jar[Endpoint(s.tabs[tab])];
    assert Backed(s, Endpoint(s.tabs[tab]), used);
    StepKeepsInv(s1, e2);
    var s2 := Step(s1, e2);
    assert s2.calls[tab].reply == Some(Granted(secret, Token(SessionOfRow(s.rows[used]), signature)));
    GrantArrives(s2, tab);
    ResolveKeepsSession(s2.tabs[tab], s2.calls[tab].reply.value.token);
  }

  /** Whose session a way in gives the tab that had `held`. */
  function Entering(door: Door, held: Option<Token>): Option<Session> {
    match door
    case Password(user, tenant) => Some(Session(tenant, user, None))
    case DispatcherPanel(user, tenant) => Some(Session(tenant, user, None))
    case HotelLink(dispatcher, hotel, _) => Some(Session(hotel, dispatcher, Some(dispatcher)))
    case PanelHotel(admin, hotel) => Some(Session(hotel, admin, Some(admin)))
    case ExitImpersonation(home) =>
      if held.Some? && held.value.session.imp.Some? then Some(Session(home, held.value.session.imp.value, None)) else None
  }

  /**
   * A sign-in whose reply arrives: the tab has a token of the session the door gives; the cookie of that session's
   * endpoint names a new live row of the same session, except that the panel's way into a hotel leaves no cookie
   * and a link whose hotel the browser does not know sets none.
   */
  lemma SignInSucceeds(s: State, tab: TabId, door: Door, secret: Secret, signature: string)
    requires tab in s.tabs && secret !in s.rows && Entering(door, s.tabs[tab].token).Some?
    ensures var u := Run(s, [SignIn(tab, door, secret, signature), Deliver(|s.mail|)]);
            var session := Entering(door, s.tabs[tab].token).value;
            && tab in u.tabs && u.tabs[tab].token == Some(Token(session, signature)) && u.mail == s.mail
            && (door.PanelHotel? ==> u.rows == s.rows && u.jar == s.jar)
            && (!door.PanelHotel? ==> u.rows == s.rows[secret := Row(session.tid, session.sub, session.imp, false)])
            && (!door.PanelHotel? && (door.HotelLink? ==> door.hotelKnown) ==>
                  u.jar == s.jar[(if session.imp.Some? then Hotel(session.tid) else Common) := secret])
            && (door.HotelLink? && !door.hotelKnown ==> u.jar == s.jar)
  {
    RunTwo(s, SignIn(tab, door, secret, signature), Deliver(|s.mail|));
    var mid := Step(s, SignIn(tab, door, secret, signature));
    assert mid.mail[..|s.mail|] + mid.mail[|s.mail|+1..] == s.mail;
  }

  /** A sign-out whose reply arrives: no token, no cookie, and the row the cookie named is revoked. */
  lemma SignOutSucceeds(s: State, tab: TabId, scope: Scope)
    requires Inv(s) && tab in s.tabs
    ensures var u := Run(s, [SignOut(tab, scope), Deliver(|s.mail|)]);
            && tab in u.tabs && u.tabs[tab].token.None?
            && u.jar == s.jar - {scope}
            && u.rows == if scope in s.jar then s.rows[s.jar[scope] := s.rows[s.jar[scope]].(revoked := true)] else s.rows
  {
    RunTwo(s, SignOut(tab, scope), Deliver(|s.mail|));
    var mid := Step(s, SignOut(tab, scope));
    assert mid.mail[..|s.mail|] + mid.mail[|s.mail|+1..] == s.mail;
    assert scope in s.jar ==> Backed(s, scope, s.jar[scope]);
  }

  // ── What a refresh does to a tab ─────────────────────────────────────────

  /** The event brings the tab a sign-in or a sign-out of its own. */
  predicate DeliversTo(s: State, e: Event, tab: TabId) {
    e.Deliver? && e.index < |s.mail| && s.mail[e.index].tab == tab
  }

  /** Only a tab's own sign-in, sign-out or settled refresh changes its token, and the refresh keeps its session. */
  lemma StepKeepsSession(s: State, e: Event, tab: TabId)
    requires Inv(s) && tab in s.tabs && !DeliversTo(s, e, tab)
    ensures tab in Step(s, e).tabs
    ensures var t, u := s.tabs[tab], Step(s, e).tabs[tab];
            && SessionKept(t, u)
            && (u.token != t.token ==> e == FinishRefresh(tab))
            && (CookieScope(SessionOf(t.token)).Hotel? ==> SessionOf(u.token) == SessionOf(t.token))
  {
    if e.FinishRefresh? && e.tab == tab && tab in s.calls && s.tabs[tab].inFlight.Some? && s.calls[tab].reply.Some? {
      match s.calls[tab].reply.value
      case Granted(_, token) => ResolveKeepsSession(s.tabs[tab], token);
      case Denied(status) => RejectKeepsSession(s.tabs[tab], status);
    }
  }

  ghost predicate Undisturbed(s: State, events: seq<Event>, tab: TabId) {
    events != [] ==>
      Undisturbed(s, events[..|events|-1], tab) && !DeliversTo(Run(s, events[..|events|-1]), events[|events|-1], tab)
  }

  lemma {:induction false} RunKeepsInv(s: State, events: seq<Event>)
    requires Inv(s)
    ensures Inv(Run(s, events))
  {
    if events != [] {
      RunKeepsInv(s, events[..|events|-1]);
      StepKeepsInv(Run(s, events[..|events|-1]), events[|events|-1]);
    }
  }

  /**
   * In every interleaving a tab signed in to a hotel keeps that very session until it signs in or out itself:
   * no other tab, cookie, late reply or revoked row moves it to another hotel, person or "on behalf of".
   */
  lemma {:induction false} HotelTabKeepsSession(s: State, events: seq<Event>, tab: TabId)
    requires Inv(s) && tab in s.tabs && CookieScope(SessionOf(s.tabs[tab].token)).Hotel? && Undisturbed(s, events, tab)
    ensures tab in Run(s, events).tabs && SessionOf(Run(s, events).tabs[tab].token) == SessionOf(s.tabs[tab].token)
  {
    if events != [] {
      HotelTabKeepsSession(s, events[..|events|-1], tab);
      RunKeepsInv(s, events[..|events|-1]);
      StepKeepsSession(Run(s, events[..|events|-1]), events[|events|-1], tab);
    }
  }

  /** The tab was without a token at some moment of the run. */
  ghost predicate SignedOutMeanwhile(s: State, events: seq<Event>, tab: TabId) {
    exists k :: 0 <= k <= |events| && tab in Run(s, events[..k]).tabs && Run(s, events[..k]).tabs[tab].token.None?
  }

  /** A tab with a sign-in of its own keeps the session too, unless a refresh signs it out. */
  lemma {:induction false} TabKeepsSession(s: State, events: seq<Event>, tab: TabId)
    requires Inv(s) && tab in s.tabs && Undisturbed(s, events, tab)
    ensures tab in Run(s, events).tabs
    ensures SessionOf(Run(s, events).tabs[tab].token) == SessionOf(s.tabs[tab].token) || SignedOutMeanwhile(s, events, tab)
  {
    if events != [] {
      var before := events[..|events|-1];
      TabKeepsSession(s, before, tab);
      RunKeepsInv(s, before);
      StepKeepsSession(Run(s, before), events[|events|-1], tab);
      assert events[..|events|] == events;
      if SignedOutMeanwhile(s, before, tab) {
        var k :| 0 <= k <= |before| && tab in Run(s, before[..k]).tabs && Run(s, before[..k]).tabs[tab].token.None?;
        assert events[..k] == before[..k];
      } else {
        assert before[..|before|] == before && events[..|before|] == before;
      }
    }
  }

  lemma StoppedStep(s: State, e: Event, tab: TabId)
    requires Inv(s) && tab in s.tabs && tab !in s.calls && IsStopped(s.tabs[tab]) && !DeliversTo(s, e, tab)
    ensures tab in Step(s, e).tabs && Step(s, e).tabs[tab] == s.tabs[tab] && tab !in Step(s, e).calls
  {
  }

  /** A tab stopped on its token sends nothing and stays stopped until it signs in or out itself. */
  lemma {:induction false} StoppedTabIsQuiet(s: State, events: seq<Event>, tab: TabId)
    requires Inv(s) && tab in s.tabs && tab !in s.calls && IsStopped(s.tabs[tab]) && Undisturbed(s, events, tab)
    ensures tab in Run(s, events).tabs && Run(s, events).tabs[tab] == s.tabs[tab] && tab !in Run(s, events).calls
  {
    if events != [] {
      StoppedTabIsQuiet(s, events[..|events|-1], tab);
      RunKeepsInv(s, events[..|events|-1]);
      StoppedStep(Run(s, events[..|events|-1]), events[|events|-1], tab);
    }
  }

  // ── What a refresh does to everybody else ────────────────────────────────

  /** The reply to a hotel's tab is for the same hotel, on the asker's own behalf; the reply to any other tab is nobody's behalf. */
  lemma ReplyIsOfItsScope(s: State, tab: TabId)
    requires Inv(s) && tab in s.calls && s.calls[tab].reply.Some? && s.calls[tab].reply.value.Granted?
    ensures tab in s.tabs && s.tabs[tab].inFlight.Some?
    ensures var held, token := s.tabs[tab].inFlight.value.token, s.calls[tab].reply.value.token;
            match CookieScope(SessionOf(held))
            case Hotel(id) => held.value.session.tid == id == token.session.tid && token.session.imp == Some(token.session.sub)
            case Common => token.session.imp.None?
  {
    assert CallOk(s, s.tabs[tab], s.calls[tab]);
  }

  /** So the only thing that stops a hotel's tab as displaced is another person signed in to the same hotel. */
  lemma DisplacedByAnotherPerson(s: State, tab: TabId)
    requires Inv(s) && tab in s.calls && s.calls[tab].reply.Some? && s.calls[tab].reply.value.Granted?
    requires var t := s.tabs[tab]; t.inFlight.Some? && CookieScope(SessionOf(t.inFlight.value.token)).Hotel?
    requires Resolve(s.tabs[tab], s.calls[tab].reply.value.token).1 == StoppedNow(DISPLACED)
    ensures var held, token := s.tabs[tab].inFlight.value.token.value, s.calls[tab].reply.value.token;
            held.session.tid == token.session.tid && (held.session.sub != token.session.sub || held.session.imp != token.session.imp)
  {
    ReplyIsOfItsScope(s, tab);
  }

  /** Rotation continues the session of the cookie it was asked with. */
  lemma ServeContinues(s: State, e: Event)
    requires Inv(s) && e.ServeRefresh? && e.tab in s.calls && s.calls[e.tab].reply.None? && e.secret !in s.rows
    requires var r := Step(s, e).calls[e.tab].reply; r.Some? && r.value.Granted?
    ensures var cookie := s.calls[e.tab].cookie.value; var r := Step(s, e).calls[e.tab].reply.value;
            && cookie in s.rows && !s.rows[cookie].revoked && Step(s, e).rows[cookie].revoked
            && r.token.session == SessionOfRow(s.rows[cookie]) == SessionOfRow(Step(s, e).rows[r.secret])
  {
  }

  /** A refresh revokes no row and replaces no cookie of another scope: tabs of other hotels work on. */
  lemma OtherScopesUntouched(s: State, e: Event, scope: Scope, secret: Secret)
    requires Inv(s) && (e.ServeRefresh? || e.FinishRefresh?) && e.tab in s.calls && s.calls[e.tab].scope != scope
    requires secret in s.rows && Fits(scope, s.rows[secret])
    ensures secret in Step(s, e).rows && Step(s, e).rows[secret] == s.rows[secret]
    ensures (scope in Step(s, e).jar <==> scope in s.jar) && (scope in s.jar ==> Step(s, e).jar[scope] == s.jar[scope])
  {
    assert CallOk(s, s.tabs[e.tab], s.calls[e.tab]);
  }

  // ── When a refresh is granted ────────────────────────────────────────────

  predicate IsLive(s: State, cookie: Secret) {
    cookie in s.rows && !s.rows[cookie].revoked
  }

  /** The event uses the cookie up: a refresh rotates it, a sign-out revokes it, or it is revoked or expires. */
  predicate Spends(s: State, e: Event, cookie: Secret) {
    match e
    case ServeRefresh(tab, userActive, _, secret, _) =>
      && tab in s.calls && s.calls[tab].reply.None? && secret !in s.rows
      && s.calls[tab].cookie == Some(cookie) && Refreshable(s.rows, s.calls[tab], userActive)
    case SignOut(tab, scope) => tab in s.tabs && CookieSent(s, scope) == Some(cookie)
    case Revoke(secret) => secret == cookie
    case _ => false
  }

  ghost predicate SpentIn(s: State, events: seq<Event>, cookie: Secret) {
    events != [] &&
      (SpentIn(s, events[..|events|-1], cookie) || Spends(Run(s, events[..|events|-1]), events[|events|-1], cookie))
  }

  lemma LiveStep(s: State, e: Event, cookie: Secret)
    requires cookie in s.rows
    ensures cookie in Step(s, e).rows
    ensures IsLive(Step(s, e), cookie) <==> IsLive(s, cookie) && !Spends(s, e, cookie)
  {
  }

  /** Over every run a row keeps whose it is, a revoked row stays revoked, and a live one is live until used up. */
  lemma {:induction false} LiveUntilSpent(s: State, events: seq<Event>, cookie: Secret)
    requires cookie in s.rows
    ensures cookie in Run(s, events).rows && Run(s, events).rows[cookie].imp == s.rows[cookie].imp
    ensures IsLive(Run(s, events), cookie) <==> IsLive(s, cookie) && !SpentIn(s, events, cookie)
  {
    if events != [] {
      var mid := Run(s, events[..|events|-1]);
      LiveUntilSpent(s, events[..|events|-1], cookie);
      LiveStep(mid, events[|events|-1], cookie);
      StepGrows(mid, events[|events|-1]);
    }
  }

  /**
   * A refresh still waiting for the server after any events is granted if and only if it left with a live
   * cookie, its people are active, and none of those events used the cookie up first.
   */
  lemma GrantedIffUnspent(s: State, events: seq<Event>, tab: TabId, userActive: bool, actorActive: bool, secret: Secret, signature: string)
    requires Inv(s) && tab in s.calls && s.calls[tab].reply.None?
    requires var u := Run(s, events); tab in u.calls && u.calls[tab] == s.calls[tab] && secret !in u.rows
    ensures var served := Step(Run(s, events), ServeRefresh(tab, userActive, actorActive, secret, signature));
            var cookie := s.calls[tab].cookie;
            && tab in served.calls && served.calls[tab].reply.Some?
            && (served.calls[tab].reply.value.Granted? <==>
                  && cookie.Some? && IsLive(s, cookie.value) && !SpentIn(s, events, cookie.value)
                  && userActive && (s.rows[cookie.value].imp.Some? ==> actorActive))
  {
    var u, c := Run(s, events), s.calls[tab];
    RunKeepsInv(s, events);
    assert CallOk(s, s.tabs[tab], c) && CallOk(u, u.tabs[tab], c);
    if c.cookie.Some? {
      LiveUntilSpent(s, events, c.cookie.value);
    }
  }

  /**
   * Two tabs of one sign-in that refresh at the same time send the same cookie: the server rotates it
   * for the first, and the second is refused, stopped or signed out although the sign-in lives on.
   */
  lemma RacingTabs(s: State, first: TabId, second: TabId, secret: Secret, later: Secret)
    requires Inv(s) && first != second && first in s.calls && second in s.calls
    requires s.calls[first] == s.calls[second] && s.calls[first].reply.None? && Refreshable(s.rows, s.calls[first], true)
    requires s.tabs[second].token == s.tabs[second].inFlight.value.token && s.tabs[second].token.Some?
    requires secret !in s.rows && later !in s.rows && secret != later
    ensures var u := Run(s, [ServeRefresh(first, true, true, secret, ""), ServeRefresh(second, true, true, later, ""), FinishRefresh(second)]);
            && first in u.calls && u.calls[first].reply.Some? && u.calls[first].reply.value.Granted?
            && second in u.tabs && (u.tabs[second].token.None? || IsStopped(u.tabs[second]))
  {
    var e1, e2, e3 := ServeRefresh(first, true, true, secret, ""), ServeRefresh(second, true, true, later, ""), FinishRefresh(second);
    assert CallOk(s, s.tabs[second], s.calls[second]);
    var s1 := Step(s, e1);
    var s2 := Step(s1, e2);
    SecondIsRefused(s, first, second, secret, later);
    RunThree(s, e1, e2, e3);
    RejectKeepsSession(s2.tabs[second], Some(401));
  }

  lemma SecondIsRefused(s: State, first: TabId, second: TabId, secret: Secret, later: Secret)
    requires first != second && first in s.calls && second in s.calls
    requires s.calls[first] == s.calls[second] && s.calls[first].reply.None? && Refreshable(s.rows, s.calls[first], true)
    requires secret !in s.rows && later !in s.rows && secret != later
    ensures var s2 := Step(Step(s, ServeRefresh(first, true, true, secret, "")), ServeRefresh(second, true, true, later, ""));
            && first in s2.calls && s2.calls[first].reply.Some? && s2.calls[first].reply.value.Granted?
            && second in s2.calls && s2.calls[second].reply == Some(Denied(Some(401)))
            && s2.tabs == s.tabs
  {
    var c := s.calls[first];
    var (rows, reply) := Rotate(s.rows, c, true, true, secret, "");
    assert rows[c.cookie.value].revoked && later !in rows;
    assert !Refreshable(rows, c, true);
  }
}
