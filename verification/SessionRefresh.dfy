/** Continuing a sign-in inside one browser tab: only the same sign-in is ever accepted. */
module SessionRefresh {
  import opened Options

  type Name = string

  /** Whose sign-in a token carries: hotel, person, and on whose behalf. */
  datatype Session = Session(tid: Name, sub: Name, imp: Option<Name>)

  /** An access token as the server signed it; two signings for one session may differ. */
  datatype Token = Token(session: Session, signature: string)

  /** Which refresh cookie and endpoints a sign-in uses. */
  datatype Scope = Common | Hotel(id: Name)

  datatype Reason = DISPLACED | ENDED

  /** The token held when the refresh in flight was started. */
  datatype Held = Held(token: Option<Token>)

  datatype Tab = Tab(token: Option<Token>, inFlight: Option<Held>, stoppedOn: Option<Token>, stoppedReason: Option<Reason>)

  const NEW_TAB := Tab(None, None, None, None)

  function SessionOf(token: Option<Token>): Option<Session> {
    if token.Some? then Some(token.value.session) else None
  }

  predicate IsSameSession(a: Option<Session>, b: Option<Session>) {
    a.Some? && b.Some? && a.value.tid == b.value.tid && a.value.sub == b.value.sub && a.value.imp == b.value.imp
  }

  function CookieScope(s: Option<Session>): Scope {
    if s.Some? && s.value.imp.Some? then Hotel(s.value.tid) else Common
  }

  // ── One refresh, as functions of the tab ─────────────────────────────────

  datatype Started = Stopped(reason: Reason) | Joined | Post(scope: Scope)

  predicate IsStopped(t: Tab) {
    t.token.Some? && t.token == t.stoppedOn
  }

  function Begin(t: Tab): (Tab, Started) {
    if IsStopped(t) && t.stoppedReason.Some? then (t, Stopped(t.stoppedReason.value))
    else if t.inFlight.Some? then (t, Joined)
    else (t.(inFlight := Some(Held(t.token))), Post(CookieScope(SessionOf(t.token))))
  }

  datatype Settled = Continue(token: Option<Token>) | StoppedNow(reason: Reason) | Failed

  function Resolve(t: Tab, token: Token): (Tab, Settled)
    requires t.inFlight.Some?
  {
    var held := t.inFlight.value.token;
    var before := SessionOf(held);
    var idle := t.(inFlight := None);
    if t.token != held then (idle, Continue(t.token))
    else if before.Some? && !IsSameSession(before, SessionOf(Some(token))) then
      (idle.(stoppedOn := held, stoppedReason := Some(DISPLACED)), StoppedNow(DISPLACED))
    else (idle.(token := Some(token)), Continue(Some(token)))
  }

  /** `status` is the answer's code, if there was an answer at all. */
  function Reject(t: Tab, status: Option<int>): (Tab, Settled)
    requires t.inFlight.Some?
  {
    var held := t.inFlight.value.token;
    var before := SessionOf(held);
    var idle := t.(inFlight := None);
    if t.token != held then (idle, Failed)
    else if before.Some? && before.value.imp.Some? then
      (if status == Some(401) then (idle.(stoppedOn := held, stoppedReason := Some(ENDED)), StoppedNow(ENDED)) else (idle, Failed))
    else (idle.(token := None), Failed)
  }

  function SetToken(t: Tab, token: Option<Token>): Tab {
    t.(token := token)
  }

  /** A stop is always recorded with its reason. */
  predicate Valid(t: Tab) {
    t.stoppedOn.Some? ==> t.stoppedReason.Some?
  }

  // ── What settling a refresh can do to the tab ────────────────────────────

  /** The tab keeps its session, or loses its token, or had none to keep. */
  predicate SessionKept(before: Tab, after: Tab) {
    || SessionOf(after.token) == SessionOf(before.token)
    || after.token.None?
    || before.token.None?
  }

  /** A reply never moves a signed-in tab to another session: it continues it, or stops it with its token in place. */
  lemma ResolveKeepsSession(t: Tab, token: Token)
    requires t.inFlight.Some?
    ensures var (after, how) := Resolve(t, token);
            && SessionKept(t, after)
            && after.inFlight.None?
            && (how.StoppedNow? ==> after.token == t.token && IsStopped(after) && Begin(after) == (after, Stopped(DISPLACED)))
            && (how.StoppedNow? <==> t.token == t.inFlight.value.token && t.token.Some? && t.token.value.session != token.session)
  {
  }

  /**
   * A renewed token is the tab's from then on when nothing happened to the tab meanwhile and the reply is of its
   * session (or it had none); whatever is handed back to those who wait is the token the tab has.
   */
  lemma RenewedTokenIsTaken(t: Tab, token: Token)
    requires t.inFlight.Some?
    ensures var (after, how) := Resolve(t, token);
            && (how.Continue? ==> how.token == after.token)
            && (t.token == t.inFlight.value.token && (t.token.None? || t.token.value.session == token.session) ==>
                  after.token == Some(token) && how == Continue(Some(token)))
            && (t.token != t.inFlight.value.token ==> after.token == t.token && how.Continue?)
            && (how.Continue? ==> after.stoppedOn == t.stoppedOn && after.stoppedReason == t.stoppedReason)
  {
  }

  /** A failed refresh signs out a tab of its own, stops a hotel's tab whose cookie ended, and leaves the rest as it was. */
  lemma RejectKeepsSession(t: Tab, status: Option<int>)
    requires t.inFlight.Some?
    ensures var (after, how) := Reject(t, status);
            && SessionKept(t, after)
            && after.inFlight.None?
            && (after.token != t.token ==> after.token.None? && CookieScope(SessionOf(t.token)) == Common)
            && (after.token.None? <==> t.token.None?
                                       || (t.token == t.inFlight.value.token && t.token.value.session.imp.None?))
            && (how.StoppedNow? <==> t.token == t.inFlight.value.token && CookieScope(SessionOf(t.token)).Hotel? && status == Some(401))
            && (how.StoppedNow? ==> after.token == t.token && Begin(after) == (after, Stopped(ENDED)))
  {
  }

  // ── Repeating the refused request ────────────────────────────────────────

  /** A refused request as its handler sees it: the answer, whether it is a repetition, whether it was a sign-in call. */
  datatype Refused = Refused(status: Option<int>, retried: bool, authPath: bool)

  /**
   * A request sent under the session `asked` was refused and waits for the refresh in flight, its own or one it
   * joined; it is repeated under the token that refresh hands back. That is its own session if and only if the
   * tab has that session when the reply arrives, or, in a tab that had no token throughout, the reply is of it.
   */
  lemma RetriedUnderSameSessionIff(asked: Option<Session>, t: Tab, token: Token)
    requires t.inFlight.Some? && Resolve(t, token).1.Continue?
    ensures SessionOf(Resolve(t, token).1.token) == asked
            <==> asked == if t.token.None? && t.inFlight.value.token.None? then Some(token.session) else SessionOf(t.token)
  {
  }

  /** A link to another hotel opened while the refresh was on its way: the repeated request goes out in that hotel. */
  lemma RetriedElsewhere(mine: Token, other: Token, reply: Token)
    requires mine.session != other.session
    ensures var t := SetToken(Begin(SetToken(NEW_TAB, Some(mine))).0, Some(other));
            Resolve(t, reply).1 == Continue(Some(other))
  {
  }

  /** A link opened before the refusal came back: the refresh is the new sign-in's, and the old request is repeated under it. */
  lemma RetriedAfterSignIn(mine: Token, other: Token, renewed: Token)
    requires mine.session != other.session && renewed.session == other.session
    ensures var t := Begin(SetToken(SetToken(NEW_TAB, Some(mine)), Some(other))).0;
            && Resolve(t, renewed).1 == Continue(Some(renewed))
            && SessionOf(Some(renewed)) != SessionOf(Some(mine))
  {
  }

  // ── The object of a tab ──────────────────────────────────────────────────

  class SessionRefresher {
    var token: Option<Token>
    var inFlight: Option<Held>
    var stoppedOn: Option<Token>
    var stoppedReason: Option<Reason>

    constructor ()
      ensures View() == NEW_TAB
    {
      token, inFlight, stoppedOn, stoppedReason := None, None, None, None;
    }

    function View(): Tab
      reads this
    {
      Tab(token, inFlight, stoppedOn, stoppedReason)
    }

    method Stop(held: Option<Token>, reason: Reason)
      modifies this`stoppedOn, this`stoppedReason
      ensures View() == old(View()).(stoppedOn := held, stoppedReason := Some(reason))
    {
      stoppedOn := held;
      stoppedReason := Some(reason);
    }

    /** Starts a refresh, joins the one in flight, or refuses on the token the tab was stopped on. */
    method Refresh() returns (r: Started)
      requires Valid(View())
      modifies this`inFlight
      ensures (View(), r) == old(Begin(View())) && Valid(View())
    {
      var held := token;
      if held.Some? && held == stoppedOn {
        return Started.Stopped(stoppedReason.value);
      }
      if inFlight.Some? {
        return Joined;
      }
      var before := SessionOf(held);
      inFlight := Some(Held(held));
      r := Post(CookieScope(before));
    }

    /** A request was answered with an error: one refresh and one repetition for a 401, never for a sign-in call, and not while refreshing is off. */
    method OnAuthError(refused: Refused, canRefresh: bool) returns (started: Option<Started>)
      requires Valid(View())
      modifies this`inFlight
      ensures started.Some? <==> !refused.retried && refused.status == Some(401) && !refused.authPath && canRefresh
      ensures started.Some? ==> (View(), started.value) == old(Begin(View()))
      ensures started.None? ==> View() == old(View())
    {
      if refused.retried {
        return None;
      }
      if refused.status != Some(401) || refused.authPath || !canRefresh {
        return None;
      }
      var r := Refresh();
      started := Some(r);
    }

    /** The server's new token has come. */
    method OnToken(renewed: Token) returns (r: Settled)
      requires Valid(View()) && inFlight.Some?
      modifies this
      ensures (View(), r) == old(Resolve(View(), renewed)) && Valid(View())
    {
      var held := inFlight.value.token;
      var before := SessionOf(held);
      inFlight := None;
      var now := token;
      if now != held {
        return Continue(now);
      }
      if before.Some? && !IsSameSession(before, SessionOf(Some(renewed))) {
        Stop(held, DISPLACED);
        return StoppedNow(DISPLACED);
      }
      token := Some(renewed);
      r := Continue(token);
    }

    /** The refresh was refused, or the network failed. */
    method OnFailure(status: Option<int>) returns (r: Settled)
      requires Valid(View()) && inFlight.Some?
      modifies this
      ensures (View(), r) == old(Reject(View(), status)) && Valid(View())
    {
      var held := inFlight.value.token;
      var before := SessionOf(held);
      inFlight := None;
      if token != held {
        return Failed;
      }
      if before.Some? && before.value.imp.Some? {
        if status == Some(401) {
          Stop(held, ENDED);
          return StoppedNow(ENDED);
        }
        return Failed;
      }
      token := None;
      r := Failed;
    }
  }
}
