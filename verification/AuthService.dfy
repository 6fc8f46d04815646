/**
 * The server's side of signing in: its refresh rows, its people and its one-time
 * codes. Every way in stores the row the protocol gives its door, and a person
 * who is switched off keeps no way to continue.
 */
module AuthService {
  import opened Options
  import opened SessionRefresh
  import opened SessionProtocol

  datatype User = User(tenant: Name, active: bool, dispatcher: bool)

  /** A one-time code of the partner's platform: into one hotel, or into the dispatcher's panel. */
  datatype SsoEntry = SsoEntry(dispatcher: Name, hotel: Option<Name>, expiresAt: int)

  datatype SignedIn = SignedIn(secret: Secret, token: Token, scope: Scope) | SignInRefused

  /** `hotels` are the tenants that are active. */
  datatype Service = Service(rows: map<Secret, Row>, users: map<Name, User>, hotels: set<Name>, codes: map<Name, SsoEntry>)

  const CODE_TTL_MILLISECONDS := 60_000

  function IsActive(users: map<Name, User>, user: Name): bool {
    user in users && users[user].active
  }

  /** Whether someone may (still) work on behalf of a hotel. */
  function MayAct(users: map<Name, User>, hotels: set<Name>, actor: Name, hotel: Name): bool {
    hotel in hotels && IsActive(users, actor)
  }

  /** The person behind the cookie's row is active. */
  function OwnerActive(s: Service, cookie: Option<Secret>): bool {
    cookie.Some? && cookie.value in s.rows && IsActive(s.users, s.rows[cookie.value].user)
  }

  /** The cookie's row is a sign-in into a hotel that is still open to its person. */
  function ActorMay(s: Service, cookie: Option<Secret>): bool {
    && cookie.Some? && cookie.value in s.rows && s.rows[cookie.value].imp.Some?
    && MayAct(s.users, s.hotels, s.rows[cookie.value].imp.value, s.rows[cookie.value].tenant)
  }

  /** Every row of a person is revoked. */
  function WithoutUser(rows: map<Secret, Row>, user: Name): map<Secret, Row> {
    map secret | secret in rows :: if rows[secret].user == user then rows[secret].(revoked := true) else rows[secret]
  }

  // ── The calls on values ──────────────────────────────────────────────────

  /** Someone is let in through a door: its row is stored, its token and cookie handed out. */
  function LetIn(s: Service, door: Door, held: Option<Token>, secret: Secret, signature: string): (Service, SignedIn)
    requires DoorRow(door, held).Some? && DoorScope(door).Some?
  {
    var row := DoorRow(door, held).value;
    (s.(rows := s.rows[secret := row]), SignedIn(secret, Token(SessionOfRow(row), signature), DoorScope(door).value))
  }

  function AfterLogin(s: Service, user: Name, good: bool, secret: Secret, signature: string): (Service, SignedIn) {
    if good && IsActive(s.users, user) && s.users[user].tenant in s.hotels
    then LetIn(s, Password(user, s.users[user].tenant), None, secret, signature) else (s, SignInRefused)
  }

  function AfterRefresh(s: Service, cookie: Option<Secret>, scope: Scope, secret: Secret, signature: string): (Service, Reply) {
    var (rows, reply) := Rotate(s.rows, Call(scope, cookie, None), OwnerActive(s, cookie), ActorMay(s, cookie), secret, signature);
    (s.(rows := rows), reply)
  }

  predicate CodeOpens(s: Service, code: Name, now: int) {
    && code in s.codes && now <= s.codes[code].expiresAt && IsActive(s.users, s.codes[code].dispatcher)
    && (s.codes[code].hotel.Some? ==> s.codes[code].hotel.value in s.hotels)
  }

  /** The door a code opens. */
  function CodeDoor(s: Service, code: Name): Door
    requires code in s.codes && s.codes[code].dispatcher in s.users
  {
    var e := s.codes[code];
    if e.hotel.Some? then HotelLink(e.dispatcher, e.hotel.value, true) else DispatcherPanel(e.dispatcher, s.users[e.dispatcher].tenant)
  }

  /** A code is gone after the first touch, whatever came of it. */
  function AfterExchange(s: Service, code: Name, now: int, secret: Secret, signature: string): (Service, SignedIn) {
    var touched := s.(codes := s.codes - {code});
    if CodeOpens(s, code, now) then LetIn(touched, CodeDoor(s, code), None, secret, signature) else (touched, SignInRefused)
  }

  function AfterExit(s: Service, held: Token, secret: Secret, signature: string): (Service, SignedIn) {
    if held.session.imp.Some? && IsActive(s.users, held.session.imp.value)
    then LetIn(s, ExitImpersonation(s.users[held.session.imp.value].tenant), Some(held), secret, signature) else (s, SignInRefused)
  }

  function AfterDeactivate(s: Service, user: Name): Service {
    if user in s.users && s.users[user].dispatcher
    then s.(users := s.users[user := s.users[user].(active := false)], rows := WithoutUser(s.rows, user)) else s
  }

  /** The codes that have not run out. */
  function LiveCodes(codes: map<Name, SsoEntry>, now: int): map<Name, SsoEntry> {
    map k | k in codes && now <= codes[k].expiresAt :: codes[k]
  }

  /** An address that is no dispatcher's is refused; a dispatcher is created, or switched on again. */
  function AfterCreateCode(s: Service, who: Name, hotel: Option<Name>, now: int, code: Name, platform: Name): Service {
    var cleaned := LiveCodes(s.codes, now);
    if who in s.users && !s.users[who].dispatcher then s.(codes := cleaned)
    else
      s.(users := s.users[who := if who in s.users then s.users[who].(active := true) else User(platform, true, true)],
         codes := cleaned[code := SsoEntry(who, hotel, now + CODE_TTL_MILLISECONDS)])
  }

  datatype ApiCall =
    | LoginCall(user: Name, good: bool, secret: Secret, signature: string)
    | RefreshCall(cookie: Option<Secret>, scope: Scope, secret: Secret, signature: string)
    | LogoutCall(cookie: Option<Secret>)
    | ExchangeCall(code: Name, now: int, secret: Secret, signature: string)
    | ExitCall(held: Token, secret: Secret, signature: string)
    | DeactivateCall(user: Name)
    | CreateCodeCall(user: Name, hotel: Option<Name>, now: int, code: Name, platform: Name)

  /** A new row takes an unused secret; a call that would reuse one does not happen. */
  function Answer(s: Service, c: ApiCall): Service {
    match c
    case LoginCall(user, good, secret, signature) => if secret in s.rows then s else AfterLogin(s, user, good, secret, signature).0
    case RefreshCall(cookie, scope, secret, signature) => if secret in s.rows then s else AfterRefresh(s, cookie, scope, secret, signature).0
    case LogoutCall(cookie) => s.(rows := RowsLeft(s.rows, cookie))
    case ExchangeCall(code, now, secret, signature) => if secret in s.rows then s else AfterExchange(s, code, now, secret, signature).0
    case ExitCall(held, secret, signature) => if secret in s.rows then s else AfterExit(s, held, secret, signature).0
    case DeactivateCall(user) => AfterDeactivate(s, user)
    case CreateCodeCall(user, hotel, now, code, platform) => AfterCreateCode(s, user, hotel, now, code, platform)
  }

  function Answers(s: Service, calls: seq<ApiCall>): Service {
    if calls == [] then s else Answer(Answers(s, calls[..|calls|-1]), calls[|calls|-1])
  }

  // ── The service ──────────────────────────────────────────────────────────

  class AuthService {
    var rows: map<Secret, Row>
    var users: map<Name, User>
    var activeHotels: set<Name>
    var ssoCodes: map<Name, SsoEntry>

    constructor (users: map<Name, User>, activeHotels: set<Name>)
      ensures View() == Service(map[], users, activeHotels, map[])
    {
      rows, ssoCodes, this.users, this.activeHotels := map[], map[], users, activeHotels;
    }

    function View(): Service
      reads this
    {
      Service(rows, users, activeHotels, ssoCodes)
    }

    /** A password sign-in, after the throttle let it through. */
    method Login(user: Name, good: bool, secret: Secret, signature: string) returns (r: SignedIn)
      modifies this`rows
      ensures (View(), r) == old(AfterLogin(View(), user, good, secret, signature))
    {
      if user !in users || !good || !users[user].active || users[user].tenant !in activeHotels {
        return SignInRefused;
      }
      var tenant := users[user].tenant;
      rows := rows[secret := Row(tenant, user, None, false)];
      r := SignedIn(secret, Token(Session(tenant, user, None), signature), Common);
    }

    /** Rotates the cookie's row if it belongs to the endpoint asked; the check comes before the revocation. */
    method Refresh(cookie: Option<Secret>, scope: Scope, secret: Secret, signature: string) returns (reply: Reply)
      requires secret !in rows
      modifies this`rows
      ensures (View(), reply) == old(AfterRefresh(View(), cookie, scope, secret, signature))
    {
      if cookie.None? || cookie.value !in rows {
        return Denied(Some(401));
      }
      var tokenRow := rows[cookie.value];
      if tokenRow.revoked {
        return Denied(Some(401));
      }
      var ownCookie := if scope.Hotel? then tokenRow.imp.Some? && tokenRow.tenant == scope.id else tokenRow.imp.None?;
      if !ownCookie {
        return Denied(Some(401));
      }
      if !IsActive(users, tokenRow.user) {
        return Denied(Some(401));
      }
      rows := rows[cookie.value := tokenRow.(revoked := true)];
      if tokenRow.imp.Some? {
        if !MayAct(users, activeHotels, tokenRow.imp.value, tokenRow.tenant) {
          return Denied(Some(401));
        }
        rows := rows[secret := Row(tokenRow.tenant, tokenRow.imp.value, tokenRow.imp, false)];
        return Granted(secret, Token(Session(tokenRow.tenant, tokenRow.imp.value, tokenRow.imp), signature));
      }
      rows := rows[secret := Row(tokenRow.tenant, tokenRow.user, None, false)];
      reply := Granted(secret, Token(Session(tokenRow.tenant, tokenRow.user, None), signature));
    }

    method Logout(cookie: Option<Secret>)
      modifies this`rows
      ensures View() == old(View()).(rows := RowsLeft(old(rows), cookie))
    {
      if cookie.Some? && cookie.value in rows {
        rows := rows[cookie.value := rows[cookie.value].(revoked := true)];
      }
    }

    /** A code opens one door once: it is gone after the first touch, whatever came of it. */
    method ExchangeSsoCode(code: Name, now: int, secret: Secret, signature: string) returns (r: SignedIn)
      modifies this`rows, this`ssoCodes
      ensures (View(), r) == old(AfterExchange(View(), code, now, secret, signature))
      ensures code !in ssoCodes && (r.SignedIn? <==> old(CodeOpens(View(), code, now)))
      ensures r.SignedIn? ==> rows == old(rows)[secret := DoorRow(old(CodeDoor(View(), code)), None).value] && CookieScope(Some(r.token.session)) == r.scope
    {
      var entry := if code in ssoCodes then Some(ssoCodes[code]) else None;
      ssoCodes := ssoCodes - {code};
      if entry.None? || entry.value.expiresAt < now {
        return SignInRefused;
      }
      var who := entry.value.dispatcher;
      if entry.value.hotel.Some? {
        var hotel := entry.value.hotel.value;
        if !MayAct(users, activeHotels, who, hotel) {
          return SignInRefused;
        }
        rows := rows[secret := Row(hotel, who, Some(who), false)];
        return SignedIn(secret, Token(Session(hotel, who, Some(who)), signature), Hotel(hotel));
      }
      if !IsActive(users, who) {
        return SignInRefused;
      }
      rows := rows[secret := Row(users[who].tenant, who, None, false)];
      r := SignedIn(secret, Token(Session(users[who].tenant, who, None), signature), Common);
    }

    /** Back from a hotel: a sign-in of the operator's own, in the common cookie; the hotel's row is left alone. */
    method ExitImpersonation(held: Token, secret: Secret, signature: string) returns (r: SignedIn)
      modifies this`rows
      ensures (View(), r) == old(AfterExit(View(), held, secret, signature))
      ensures r.SignedIn? ==> r.scope == Common && forall other :: other in old(rows) && other != secret ==> other in rows && rows[other] == old(rows[other])
    {
      if held.session.imp.None? {
        return SignInRefused;
      }
      var operator := held.session.imp.value;
      if !IsActive(users, operator) {
        return SignInRefused;
      }
      rows := rows[secret := Row(users[operator].tenant, operator, None, false)];
      r := SignedIn(secret, Token(Session(users[operator].tenant, operator, None), signature), Common);
    }

    /** Switches a dispatcher off together with every sign-in they have. */
    method DeactivateDispatcher(user: Name) returns (deactivated: bool)
      modifies this`rows, this`users
      ensures View() == old(AfterDeactivate(View(), user))
      ensures deactivated <==> user in old(users) && old(users[user]).dispatcher
    {
      if user !in users || !users[user].dispatcher {
        return false;
      }
      users := users[user := users[user].(active := false)];
      rows := WithoutUser(rows, user);
      deactivated := true;
    }

    /** Issues a code for a dispatcher, creating the account or switching it on; codes that have run out are swept first. */
    method CreateSsoCode(who: Name, hotel: Option<Name>, now: int, code: Name, platform: Name) returns (issued: bool)
      modifies this`users, this`ssoCodes
      ensures View() == old(AfterCreateCode(View(), who, hotel, now, code, platform))
      ensures issued <==> !(who in old(users) && !old(users[who]).dispatcher)
    {
      SweepCodes(now);
      if who in users {
        if !users[who].dispatcher {
          return false;
        }
        users := users[who := users[who].(active := true)];
      } else {
        users := users[who := User(platform, true, true)];
      }
      ssoCodes := ssoCodes[code := SsoEntry(who, hotel, now + CODE_TTL_MILLISECONDS)];
      issued := true;
    }

    method SweepCodes(now: int)
      modifies this`ssoCodes
      ensures ssoCodes == LiveCodes(old(ssoCodes), now)
    {
      ghost var was := ssoCodes;
      var left := ssoCodes.Keys;
      while left != {}
        invariant left <= was.Keys
        invariant forall k :: k in ssoCodes <==> k in was && (k in left || now <= was[k].expiresAt)
        invariant forall k :: k in ssoCodes ==> ssoCodes[k] == was[k]
        decreases left
      {
        var k :| k in left;
        left := left - {k};
        if ssoCodes[k].expiresAt < now {
          ssoCodes := ssoCodes - {k};
        }
      }
      assert ssoCodes == LiveCodes(was, now);
    }
  }

  // ── The service and the protocol ─────────────────────────────────────────

  /** Being let in stores the row and hands out the token and cookie that the protocol's sign-in step does. */
  lemma LetInIsSignIn(s: State, v: Service, tab: TabId, door: Door, secret: Secret, signature: string)
    requires s.rows == v.rows && tab in s.tabs && secret !in s.rows && !door.PanelHotel?
    requires DoorRow(door, s.tabs[tab].token).Some? && DoorScope(door).Some?
    ensures var (after, r) := LetIn(v, door, s.tabs[tab].token, secret, signature);
            var step := Step(s, SignIn(tab, door, secret, signature));
            step.rows == after.rows && step.mail == s.mail + [Mail(tab, Some(r.scope), Some(r.secret), Some(r.token))]
  {
  }

  /** So do a refresh and a sign-out to the rows of their cookie. */
  lemma RowsMoveAlike(s: State, v: Service, tab: TabId, secret: Secret, signature: string, scope: Scope)
    requires s.rows == v.rows && tab in s.tabs
    ensures Step(s, SignOut(tab, scope)).rows == Answer(v, LogoutCall(CookieSent(s, scope))).rows
    ensures tab in s.calls && s.calls[tab].reply.None? && secret !in s.rows ==>
              var c := s.calls[tab];
              var served := Step(s, ServeRefresh(tab, OwnerActive(v, c.cookie), ActorMay(v, c.cookie), secret, signature));
              && served.rows == AfterRefresh(v, c.cookie, c.scope, secret, signature).0.rows
              && served.calls[tab].reply == Some(AfterRefresh(v, c.cookie, c.scope, secret, signature).1)
  {
  }

  // ── Who is let in ────────────────────────────────────────────────────────

  /** Let in with a session: its row is stored under the new secret and nothing else moves but, perhaps, the codes. */
  ghost predicate LetInAs(s: Service, after: Service, r: SignedIn, session: Session, secret: Secret, signature: string) {
    && r == SignedIn(secret, Token(session, signature), if session.imp.Some? then Hotel(session.tid) else Common)
    && after.rows == s.rows[secret := Row(session.tid, session.sub, session.imp, false)]
    && after.users == s.users && after.hotels == s.hotels
  }

  /** A password sign-in succeeds exactly with the right password of an active person of an active hotel; otherwise nothing changes. */
  lemma LoginIff(s: Service, user: Name, good: bool, secret: Secret, signature: string)
    ensures var (after, r) := AfterLogin(s, user, good, secret, signature);
            && (r.SignedIn? <==> good && user in s.users && s.users[user].active && s.users[user].tenant in s.hotels)
            && (r.SignedIn? ==> LetInAs(s, after, r, Session(s.users[user].tenant, user, None), secret, signature) && after.codes == s.codes)
            && (r.SignInRefused? ==> after == s)
  {
  }

  /**
   * A refresh is granted exactly for a live row of the endpoint's own scope whose person is active and, for a sign-in
   * into a hotel, whose hotel is open; the row is revoked and followed by one for the same hotel, person and "on behalf of".
   */
  lemma RefreshIff(s: Service, cookie: Option<Secret>, scope: Scope, secret: Secret, signature: string)
    requires UnderOwnName(s.rows) && secret !in s.rows
    ensures var (after, reply) := AfterRefresh(s, cookie, scope, secret, signature);
            && (reply.Granted? <==>
                  && cookie.Some? && cookie.value in s.rows
                  && var row := s.rows[cookie.value];
                     && !row.revoked && row.user in s.users && s.users[row.user].active
                     && (scope.Hotel? <==> row.imp.Some?) && (scope.Hotel? ==> row.tenant == scope.id && row.tenant in s.hotels))
            && (reply.Granted? ==>
                  var row := s.rows[cookie.value];
                  && reply == Granted(secret, Token(Session(row.tenant, row.user, row.imp), signature))
                  && after == s.(rows := s.rows[cookie.value := row.(revoked := true)][secret := row]))
            && (reply.Denied? ==> after.users == s.users && after.codes == s.codes && after.rows.Keys == s.rows.Keys)
  {
    if cookie.Some? && cookie.value in s.rows {
      var k := cookie.value;
      assert k in s.rows && (s.rows[k].imp.Some? ==> s.rows[k].user == s.rows[k].imp.value);
    }
  }

  /** Whose session a code opens: its dispatcher's, in the hotel it names or in the panel of their own tenant. */
  function CodeSession(s: Service, e: SsoEntry): Session
    requires e.dispatcher in s.users
  {
    match e.hotel
    case Some(hotel) => Session(hotel, e.dispatcher, Some(e.dispatcher))
    case None => Session(s.users[e.dispatcher].tenant, e.dispatcher, None)
  }

  /** A code opens its door exactly while it is there and has not run out, its dispatcher is active and its hotel open; it is gone either way. */
  lemma ExchangeIff(s: Service, code: Name, now: int, secret: Secret, signature: string)
    ensures var (after, r) := AfterExchange(s, code, now, secret, signature);
            && after.codes == s.codes - {code}
            && (r.SignedIn? <==>
                  && code in s.codes
                  && var e := s.codes[code];
                     && now <= e.expiresAt && e.dispatcher in s.users && s.users[e.dispatcher].active
                     && (e.hotel.Some? ==> e.hotel.value in s.hotels))
            && (r.SignedIn? ==> LetInAs(s, after, r, CodeSession(s, s.codes[code]), secret, signature))
            && (r.SignInRefused? ==> after == s.(codes := after.codes))
  {
  }

  /** Back from a hotel comes exactly an active person who works there on somebody's behalf, as themselves. */
  lemma ExitIff(s: Service, held: Token, secret: Secret, signature: string)
    ensures var (after, r) := AfterExit(s, held, secret, signature);
            && (r.SignedIn? <==> held.session.imp.Some? && held.session.imp.value in s.users && s.users[held.session.imp.value].active)
            && (r.SignedIn? ==>
                  var who := held.session.imp.value;
                  LetInAs(s, after, r, Session(s.users[who].tenant, who, None), secret, signature) && after.codes == s.codes)
            && (r.SignInRefused? ==> after == s)
  {
  }

  /** A code is issued to anyone but a known person who is no dispatcher: they are created in the platform's tenant, or switched on as they are. */
  lemma IssueIff(s: Service, who: Name, hotel: Option<Name>, now: int, code: Name, platform: Name)
    ensures var after := AfterCreateCode(s, who, hotel, now, code, platform);
            && (who in s.users && !s.users[who].dispatcher ==> after.users == s.users)
            && (who in s.users && s.users[who].dispatcher ==> after.users == s.users[who := s.users[who].(active := true)])
            && (who !in s.users ==> after.users == s.users[who := User(platform, true, true)])
            && after.rows == s.rows && after.hotels == s.hotels
            && forall other :: other != code ==>
                 && (other in after.codes <==> other in s.codes && now <= s.codes[other].expiresAt)
                 && (other in after.codes ==> after.codes[other] == s.codes[other])
  {
  }

  /** Switching off touches a dispatcher and their rows only: every other person, row, hotel and code stays as it is. */
  lemma DeactivationSpares(s: Service, user: Name)
    ensures var after := AfterDeactivate(s, user);
            && after.users.Keys == s.users.Keys && after.rows.Keys == s.rows.Keys && after.hotels == s.hotels && after.codes == s.codes
            && (forall other :: other in s.users ==>
                  after.users[other] == if other == user && s.users[user].dispatcher then s.users[user].(active := false) else s.users[other])
            && (forall secret :: secret in s.rows ==>
                  after.rows[secret]
                  == if s.rows[secret].user == user && user in s.users && s.users[user].dispatcher
                     then s.rows[secret].(revoked := true) else s.rows[secret])
  {
  }

  // ── The life of a code ───────────────────────────────────────────────────

  /** The calls neither use nor issue the code, and issue no other after `now`. */
  ghost predicate Untouched(calls: seq<ApiCall>, code: Name, now: int) {
    forall c :: c in calls ==>
      && !(c.ExchangeCall? && c.code == code)
      && (c.CreateCodeCall? ==> c.code != code && c.now <= now)
  }

  /** The code is there as issued, or was swept after it had run out. */
  ghost predicate CodeStands(s: Service, code: Name, e: SsoEntry, now: int) {
    if code in s.codes then s.codes[code] == e else e.expiresAt < now
  }

  lemma CallKeepsCode(s: Service, c: ApiCall, code: Name, e: SsoEntry, now: int)
    requires CodeStands(s, code, e, now) && e.dispatcher in s.users && Untouched([c], code, now)
    ensures CodeStands(Answer(s, c), code, e, now) && e.dispatcher in Answer(s, c).users && Answer(s, c).hotels == s.hotels
    ensures s.users[e.dispatcher].active && c != DeactivateCall(e.dispatcher) ==> Answer(s, c).users[e.dispatcher].active
  {
    assert c in [c];
  }

  lemma {:induction false} CodeKept(s: Service, calls: seq<ApiCall>, code: Name, e: SsoEntry, now: int)
    requires CodeStands(s, code, e, now) && e.dispatcher in s.users && Untouched(calls, code, now)
    ensures var after := Answers(s, calls);
            && CodeStands(after, code, e, now) && e.dispatcher in after.users && after.hotels == s.hotels
            && (s.users[e.dispatcher].active && DeactivateCall(e.dispatcher) !in calls ==> after.users[e.dispatcher].active)
  {
    if calls != [] {
      var before, c := calls[..|calls|-1], calls[|calls|-1];
      assert c in calls && forall x :: x in before ==> x in calls;
      CodeKept(s, before, code, e, now);
      CallKeepsCode(Answers(s, before), c, code, e, now);
    }
  }

  /**
   * A code issued at `at` and not touched since opens its door, whatever other calls came between, exactly for
   * sixty seconds, while its dispatcher is not switched off and its hotel is open.
   */
  lemma IssuedCodeOpensIff(s: Service, who: Name, hotel: Option<Name>, at: int, code: Name, platform: Name,
                           calls: seq<ApiCall>, now: int, secret: Secret, signature: string)
    requires who in s.users ==> s.users[who].dispatcher
    requires Untouched(calls, code, now)
    ensures var after := Answers(AfterCreateCode(s, who, hotel, at, code, platform), calls);
            var r := AfterExchange(after, code, now, secret, signature).1;
            && who in after.users
            && (r.SignedIn? <==> now <= at + 60_000 && after.users[who].active && (hotel.Some? ==> hotel.value in s.hotels))
            && (DeactivateCall(who) !in calls ==> after.users[who].active)
  {
    CodeKept(AfterCreateCode(s, who, hotel, at, code, platform), calls, code, SsoEntry(who, hotel, at + CODE_TTL_MILLISECONDS), now);
  }

  lemma {:induction false} GoneUntilIssued(s: Service, calls: seq<ApiCall>, code: Name)
    requires code !in s.codes && forall c :: c in calls ==> !(c.CreateCodeCall? && c.code == code)
    ensures code !in Answers(s, calls).codes
  {
    if calls != [] {
      GoneUntilIssued(s, calls[..|calls|-1], code);
      assert calls[|calls|-1] in calls;
    }
  }

  /** A code that was touched once, with success or without, opens nothing again until it is issued anew. */
  lemma CodeOpensOnce(s: Service, code: Name, now: int, secret: Secret, signature: string,
                      calls: seq<ApiCall>, later: int, secret2: Secret, signature2: string)
    requires forall c :: c in calls ==> !(c.CreateCodeCall? && c.code == code)
    ensures var after := Answers(AfterExchange(s, code, now, secret, signature).0, calls);
            AfterExchange(after, code, later, secret2, signature2).1.SignInRefused?
  {
    GoneUntilIssued(AfterExchange(s, code, now, secret, signature).0, calls, code);
  }

  // ── A dispatcher who was switched off ────────────────────────────────────

  /** A sign-in into a hotel is stored under the person it was made for. */
  ghost predicate UnderOwnName(rows: map<Secret, Row>) {
    forall secret :: secret in rows && rows[secret].imp.Some? ==> rows[secret].user == rows[secret].imp.value
  }

  lemma CallKeepsNames(s: Service, c: ApiCall)
    requires UnderOwnName(s.rows)
    ensures UnderOwnName(Answer(s, c).rows)
  {
  }

  lemma {:induction false} NamesKept(users: map<Name, User>, hotels: set<Name>, calls: seq<ApiCall>)
    ensures UnderOwnName(Answers(Service(map[], users, hotels, map[]), calls).rows)
  {
    if calls != [] {
      NamesKept(users, hotels, calls[..|calls|-1]);
      CallKeepsNames(Answers(Service(map[], users, hotels, map[]), calls[..|calls|-1]), calls[|calls|-1]);
    }
  }

  /** The person is inactive and every row stored under their name is revoked. */
  ghost predicate SwitchedOff(s: Service, user: Name) {
    && !IsActive(s.users, user)
    && (forall secret :: secret in s.rows && s.rows[secret].user == user ==> s.rows[secret].revoked)
    && UnderOwnName(s.rows)
  }

  lemma RefreshKeepsOff(s: Service, user: Name, cookie: Option<Secret>, scope: Scope, secret: Secret, signature: string)
    requires SwitchedOff(s, user) && secret !in s.rows
    ensures SwitchedOff(AfterRefresh(s, cookie, scope, secret, signature).0, user)
  {
  }

  lemma LetInKeepsOff(s: Service, user: Name, door: Door, held: Option<Token>, secret: Secret, signature: string)
    requires SwitchedOff(s, user) && secret !in s.rows
    requires DoorRow(door, held).Some? && DoorScope(door).Some? && DoorRow(door, held).value.user != user
    ensures SwitchedOff(LetIn(s, door, held, secret, signature).0, user)
  {
  }

  lemma CallKeepsOff(s: Service, user: Name, c: ApiCall)
    requires SwitchedOff(s, user) && !(c.CreateCodeCall? && c.user == user)
    ensures SwitchedOff(Answer(s, c), user)
  {
    match c
    case LoginCall(who, good, secret, signature) =>
      if secret !in s.rows && AfterLogin(s, who, good, secret, signature).1.SignedIn? {
        LetInKeepsOff(s, user, Password(who, s.users[who].tenant), None, secret, signature);
      }
    case RefreshCall(cookie, scope, secret, signature) =>
      if secret !in s.rows {
        RefreshKeepsOff(s, user, cookie, scope, secret, signature);
      }
    case ExchangeCall(code, now, secret, signature) =>
      if secret !in s.rows && CodeOpens(s, code, now) {
        LetInKeepsOff(s.(codes := s.codes - {code}), user, CodeDoor(s, code), None, secret, signature);
      }
    case ExitCall(held, secret, signature) =>
      if secret !in s.rows && AfterExit(s, held, secret, signature).1.SignedIn? {
        LetInKeepsOff(s, user, ExitImpersonation(s.users[held.session.imp.value].tenant), Some(held), secret, signature);
      }
    case _ =>
  }

  lemma {:induction false} StaysOff(s: Service, user: Name, calls: seq<ApiCall>)
    requires SwitchedOff(s, user) && forall c :: c in calls ==> !(c.CreateCodeCall? && c.user == user)
    ensures SwitchedOff(Answers(s, calls), user)
  {
    if calls != [] {
      StaysOff(s, user, calls[..|calls|-1]);
      assert calls[|calls|-1] in calls;
      CallKeepsOff(Answers(s, calls[..|calls|-1]), user, calls[|calls|-1]);
    }
  }

  /**
   * A dispatcher is switched off after any calls; over every run that follows, as long as the platform issues no
   * new code for them, no row under their name is live and no cookie of theirs is refreshed, in any hotel or the panel.
   */
  lemma SwitchedOffUntilNewCode(users: map<Name, User>, hotels: set<Name>, before: seq<ApiCall>, user: Name, calls: seq<ApiCall>)
    requires var s := Answers(Service(map[], users, hotels, map[]), before); user in s.users && s.users[user].dispatcher
    requires forall c :: c in calls ==> !(c.CreateCodeCall? && c.user == user)
    ensures var after := Answers(AfterDeactivate(Answers(Service(map[], users, hotels, map[]), before), user), calls);
            && SwitchedOff(after, user)
            && forall c: Call, userActive :: c.cookie.Some? && c.cookie.value in after.rows && after.rows[c.cookie.value].user == user ==>
                 !Refreshable(after.rows, c, userActive)
  {
    NamesKept(users, hotels, before);
    var off := AfterDeactivate(Answers(Service(map[], users, hotels, map[]), before), user);
    StaysOff(off, user, calls);
    OffRefreshesNothing(Answers(off, calls), user);
  }

  lemma OffRefreshesNothing(s: Service, user: Name)
    requires SwitchedOff(s, user)
    ensures forall c: Call, userActive :: c.cookie.Some? && c.cookie.value in s.rows && s.rows[c.cookie.value].user == user ==>
              !Refreshable(s.rows, c, userActive)
  {
    forall c: Call, userActive: bool | c.cookie.Some? && c.cookie.value in s.rows && s.rows[c.cookie.value].user == user
      ensures !Refreshable(s.rows, c, userActive)
    {
      var k := c.cookie.value;
      assert k in s.rows && s.rows[k].revoked;
    }
  }

  lemma CallKeepsRevoked(s: Service, c: ApiCall, secret: Secret)
    requires secret in s.rows && s.rows[secret].revoked
    ensures secret in Answer(s, c).rows && Answer(s, c).rows[secret].revoked
  {
  }

  /** And the rows they had then are never refreshed again, whatever calls follow, a new code among them. */
  lemma {:induction false} OldRowsNeverAgain(s: Service, user: Name, calls: seq<ApiCall>, c: Call, userActive: bool)
    requires user in s.users && s.users[user].dispatcher
    requires c.cookie.Some? && c.cookie.value in s.rows && s.rows[c.cookie.value].user == user
    ensures var after := Answers(AfterDeactivate(s, user), calls);
            && c.cookie.value in after.rows && after.rows[c.cookie.value].revoked
            && !Refreshable(after.rows, c, userActive)
  {
    if calls != [] {
      OldRowsNeverAgain(s, user, calls[..|calls|-1], c, userActive);
      CallKeepsRevoked(Answers(AfterDeactivate(s, user), calls[..|calls|-1]), calls[|calls|-1], c.cookie.value);
    }
  }

  /** In the browsers it is the same: over every later run of tabs, late replies and sign-ins those rows grant nothing. */
  lemma OldRowsGrantNothing(s: State, user: Name, events: seq<Event>, c: Call, userActive: bool)
    requires c.cookie.Some? && c.cookie.value in s.rows && s.rows[c.cookie.value].user == user
    ensures !Refreshable(Run(s.(rows := WithoutUser(s.rows, user)), events).rows, c, userActive)
  {
    LiveUntilSpent(s.(rows := WithoutUser(s.rows, user)), events, c.cookie.value);
  }
}
