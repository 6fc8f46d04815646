/** The limit on failed sign-ins: counters that live for a window, per address and per machine. */
module LoginThrottle {
  import opened Options
  import opened Sequences

  /** Seconds. */
  type Time = int

  const WINDOW_SECONDS: nat := 900
  const MAX_PER_EMAIL: nat := 5
  const MAX_PER_IP: nat := 20

  /** The address is in lower case already. */
  datatype Key = Email(email: string) | Ip(ip: string)

  /** A counter and the moment it disappears, if one is set. */
  datatype Counter = Counter(count: nat, until: Option<Time>)

  type Counters = map<Key, Counter>

  function Max(k: Key): nat {
    if k.Email? then MAX_PER_EMAIL else MAX_PER_IP
  }

  predicate Alive(c: Counters, k: Key, now: Time) {
    k in c && (c[k].until.Some? ==> now < c[k].until.value)
  }

  function Value(c: Counters, k: Key, now: Time): nat {
    if Alive(c, k, now) then c[k].count else 0
  }

  function KeysOf(email: string, ip: Option<string>): seq<Key> {
    [Email(email)] + if ip.Some? && ip.value != "" then [Ip(ip.value)] else []
  }

  /** One more failure under a key; the first one starts the window. */
  function Counted(c: Counters, k: Key, now: Time): Counters {
    var n := Value(c, k, now) + 1;
    c[k := Counter(n, if n == 1 then Some(now + WINDOW_SECONDS) else c[k].until)]
  }

  function CountedAll(c: Counters, keys: seq<Key>, now: Time): Counters {
    if keys == [] then c else Counted(CountedAll(c, keys[..|keys|-1], now), keys[|keys|-1], now)
  }

  predicate Reached(c: Counters, k: Key, now: Time) {
    Value(c, k, now) >= Max(k)
  }

  predicate Allowed(c: Counters, email: string, ip: Option<string>, now: Time) {
    forall k :: k in KeysOf(email, ip) ==> !Reached(c, k, now)
  }

  // ── Runs of sign-in attempts ─────────────────────────────────────────────

  datatype Attempt = Attempt(email: string, ip: Option<string>, good: bool, at: Time)

  /** An attempt is refused, forgives its address, or is counted. */
  function Try(c: Counters, a: Attempt): Counters {
    if !Allowed(c, a.email, a.ip, a.at) then c
    else if a.good then c - {Email(a.email)}
    else CountedAll(c, KeysOf(a.email, a.ip), a.at)
  }

  function After(attempts: seq<Attempt>): Counters {
    if attempts == [] then map[] else Try(After(attempts[..|attempts|-1]), attempts[|attempts|-1])
  }

  // ── The object ───────────────────────────────────────────────────────────

  class Throttle {
    var counters: Counters

    constructor ()
      ensures counters == map[]
    {
      counters := map[];
    }

    /** Before the password is looked at: the minutes to wait, if a limit is reached. */
    method AssertAllowed(email: string, ip: Option<string>, now: Time) returns (wait: Option<int>)
      ensures wait.None? <==> Allowed(counters, email, ip, now)
      ensures wait.Some? ==> wait.value >= 1
      ensures wait.Some? ==> exists k :: k in KeysOf(email, ip) && Reached(counters, k, now)
                                         && !Alive(WithWindows(counters), k, now + 60 * wait.value)
                                         && (wait.value > 1 ==> Alive(counters, k, now + 60 * (wait.value - 1)))
    {
      var keys := KeysOf(email, ip);
      for i := 0 to |keys|
        invariant forall j :: 0 <= j < i ==> !Reached(counters, keys[j], now)
      {
        if Value(counters, keys[i], now) >= Max(keys[i]) {
          var ttl := if counters[keys[i]].until.Some? then counters[keys[i]].until.value - now else -1;
          var minutes := (ttl + 59) / 60;
          assert Reached(counters, keys[i], now);
          return Some(if minutes < 1 then 1 else minutes);
        }
      }
      wait := None;
    }

    /** Counts a failure under every key; returns the count for the address. */
    method Fail(email: string, ip: Option<string>, now: Time) returns (byEmail: nat)
      modifies this`counters
      ensures counters == CountedAll(old(counters), KeysOf(email, ip), now)
      ensures byEmail == Value(old(counters), Email(email), now) + 1
    {
      var keys := KeysOf(email, ip);
      byEmail := 0;
      for i := 0 to |keys|
        invariant counters == CountedAll(old(counters), keys[..i], now)
        invariant i > 0 ==> byEmail == Value(old(counters), Email(email), now) + 1
      {
        assert keys[..i+1][..i] == keys[..i];
        var k := keys[i];
        var n := Value(counters, k, now) + 1;
        counters := counters[k := Counter(n, if n == 1 then None else counters[k].until)];
        if n == 1 {
          counters := counters[k := counters[k].(until := Some(now + WINDOW_SECONDS))];
        }
        if i == 0 {
          byEmail := n;
        }
      }
      assert keys[..|keys|] == keys;
    }

    method Success(email: string)
      modifies this`counters
      ensures counters == old(counters) - {Email(email)}
    {
      counters := counters - {Email(email)};
    }

    /** A sign-in: a reached limit refuses it whatever the password; otherwise it is forgiven or counted. */
    method SignIn(a: Attempt) returns (admitted: bool)
      modifies this`counters
      ensures counters == Try(old(counters), a)
      ensures admitted <==> a.good && Allowed(old(counters), a.email, a.ip, a.at)
    {
      var wait := AssertAllowed(a.email, a.ip, a.at);
      if wait.Some? {
        return false;
      }
      if !a.good {
        var failures := Fail(a.email, a.ip, a.at);
        return false;
      }
      Success(a.email);
      admitted := true;
    }
  }

  /** The counters that have a window; the others never run out by themselves. */
  function WithWindows(c: Counters): Counters {
    map k | k in c && c[k].until.Some? :: c[k]
  }

  ghost predicate InOrder(attempts: seq<Attempt>) {
    forall i, j :: 0 <= i < j < |attempts| ==> attempts[i].at <= attempts[j].at
  }

  /** What one attempt adds to the failures counted under a key. */
  function Logged(c: Counters, a: Attempt, k: Key, log: seq<Time>): seq<Time> {
    if k !in KeysOf(a.email, a.ip) || !Allowed(c, a.email, a.ip, a.at) then log
    else if !a.good then log + [a.at]
    else if k.Email? then []
    else log
  }

  /** The moments of the failures counted under a key, since the key's last successful sign-in. */
  function Failures(attempts: seq<Attempt>, k: Key): seq<Time> {
    if attempts == [] then []
    else Logged(After(attempts[..|attempts|-1]), attempts[|attempts|-1], k, Failures(attempts[..|attempts|-1], k))
  }

  // ── The windows behind a counter ─────────────────────────────────────────

  /** `starts[i]` is the failure that opened the window of failure `i`. */
  ghost predicate Windows(log: seq<Time>, starts: seq<nat>, max: nat) {
    && |starts| == |log|
    && (forall i :: 0 <= i < |log| ==> starts[i] <= i && i - starts[i] < max && log[i] < log[starts[i]] + WINDOW_SECONDS)
    && (forall i, j :: 0 <= i < j < |log| ==> log[i] <= log[j])
    && (forall i, j :: 0 <= i < j < |log| ==>
          starts[i] == starts[j] || (i < starts[j] && log[starts[i]] + WINDOW_SECONDS <= log[starts[j]]))
  }

  function At(c: Counters, k: Key): Option<Counter> {
    if k in c then Some(c[k]) else None
  }

  /** The stored counter is the open window's: its length so far and its end. */
  ghost predicate Tracks(stored: Option<Counter>, max: nat, log: seq<Time>, starts: seq<nat>) {
    && Windows(log, starts, max)
    && stored == if log == [] then None
                 else Some(Counter(|log| - starts[|log|-1], Some(log[starts[|log|-1]] + WINDOW_SECONDS)))
  }

  lemma SameWindow(log: seq<Time>, starts: seq<nat>, max: nat, now: Time)
    requires Windows(log, starts, max) && log != [] && forall i :: 0 <= i < |log| ==> log[i] <= now
    requires now < log[starts[|log|-1]] + WINDOW_SECONDS && |log| - starts[|log|-1] < max
    ensures Windows(log + [now], starts + [starts[|log|-1]], max)
  {
    var last := |log| - 1;
    var more := starts + [starts[last]];
    forall i | 0 <= i < |log| ensures more[i] == starts[last] || (i < starts[last] && log[more[i]] + WINDOW_SECONDS <= log[starts[last]]) {
      assert i < last ==> starts[i] == starts[last] || i < starts[last];
    }
  }

  lemma NextWindow(log: seq<Time>, starts: seq<nat>, max: nat, now: Time)
    requires Windows(log, starts, max) && max > 0 && forall i :: 0 <= i < |log| ==> log[i] <= now
    requires log != [] ==> log[starts[|log|-1]] + WINDOW_SECONDS <= now
    ensures Windows(log + [now], starts + [|log|], max)
  {
    var last := |log| - 1;
    forall i | 0 <= i < |log| ensures log[starts[i]] + WINDOW_SECONDS <= now {
      assert i < last ==> starts[i] == starts[last] || log[starts[i]] + WINDOW_SECONDS <= log[starts[last]];
    }
  }

  lemma CountedTracks(c: Counters, k: Key, log: seq<Time>, starts: seq<nat>, now: Time) returns (more: seq<nat>)
    requires Tracks(At(c, k), Max(k), log, starts) && !Reached(c, k, now)
    requires forall t :: t in log ==> t <= now
    ensures Tracks(At(Counted(c, k, now), k), Max(k), log + [now], more)
  {
    assert forall i :: 0 <= i < |log| ==> log[i] in log;
    if Alive(c, k, now) {
      more := CountedAlive(c, k, log, starts, now);
    } else {
      more := CountedGone(c, k, log, starts, now);
    }
  }

  lemma CountedGone(c: Counters, k: Key, log: seq<Time>, starts: seq<nat>, now: Time) returns (more: seq<nat>)
    requires Tracks(At(c, k), Max(k), log, starts) && !Alive(c, k, now)
    requires forall i :: 0 <= i < |log| ==> log[i] <= now
    ensures Tracks(At(Counted(c, k, now), k), Max(k), log + [now], more)
  {
    NextWindow(log, starts, Max(k), now);
    more := starts + [|log|];
  }

  lemma CountedAlive(c: Counters, k: Key, log: seq<Time>, starts: seq<nat>, now: Time) returns (more: seq<nat>)
    requires Tracks(At(c, k), Max(k), log, starts) && !Reached(c, k, now) && Alive(c, k, now)
    requires forall i :: 0 <= i < |log| ==> log[i] <= now
    ensures Tracks(At(Counted(c, k, now), k), Max(k), log + [now], more)
  {
    SameWindow(log, starts, Max(k), now);
    more := starts + [starts[|log|-1]];
  }

  lemma KeysDiffer(email: string, ip: Option<string>)
    ensures var keys := KeysOf(email, ip); 1 <= |keys| <= 2 && (|keys| == 2 ==> keys[0] != keys[1])
  {
  }

  lemma CountedAllAt(c: Counters, keys: seq<Key>, k: Key, now: Time)
    requires |keys| <= 2 && (|keys| == 2 ==> keys[0] != keys[1])
    ensures At(CountedAll(c, keys, now), k) == if k in keys then At(Counted(c, k, now), k) else At(c, k)
  {
    if |keys| == 2 {
      assert keys[..1][..0] == [] && keys[..1] == [keys[0]];
      assert keys == [keys[0], keys[1]];
    } else if |keys| == 1 {
      assert keys[..0] == [];
    }
  }

  lemma TryAt(c: Counters, a: Attempt, k: Key)
    ensures At(Try(c, a), k) ==
            if k !in KeysOf(a.email, a.ip) || !Allowed(c, a.email, a.ip, a.at) then At(c, k)
            else if !a.good then At(Counted(c, k, a.at), k)
            else if k.Email? then None
            else At(c, k)
  {
    KeysDiffer(a.email, a.ip);
    CountedAllAt(c, KeysOf(a.email, a.ip), k, a.at);
  }

  lemma TryTracks(c: Counters, a: Attempt, k: Key, log: seq<Time>, starts: seq<nat>) returns (more: seq<nat>)
    requires Tracks(At(c, k), Max(k), log, starts) && forall t :: t in log ==> t <= a.at
    ensures Tracks(At(Try(c, a), k), Max(k), Logged(c, a, k, log), more)
  {
    TryAt(c, a, k);
    if k !in KeysOf(a.email, a.ip) || !Allowed(c, a.email, a.ip, a.at) {
      more := starts;
    } else if !a.good {
      more := CountedTracks(c, k, log, starts, a.at);
    } else {
      more := if k.Email? then [] else starts;
    }
  }

  lemma {:induction false} FailuresBefore(attempts: seq<Attempt>, k: Key, now: Time)
    requires forall i :: 0 <= i < |attempts| ==> attempts[i].at <= now
    ensures forall t :: t in Failures(attempts, k) ==> t <= now
  {
    if attempts != [] {
      FailuresBefore(attempts[..|attempts|-1], k, now);
    }
  }

  lemma {:induction false} RunTracks(attempts: seq<Attempt>, k: Key) returns (starts: seq<nat>)
    requires InOrder(attempts)
    ensures Tracks(At(After(attempts), k), Max(k), Failures(attempts, k), starts)
  {
    if attempts == [] {
      starts := [];
    } else {
      var before, a := attempts[..|attempts|-1], attempts[|attempts|-1];
      starts := RunTracks(before, k);
      FailuresBefore(before, k, a.at);
      starts := TryTracks(After(before), a, k, Failures(before, k), starts);
    }
  }

  // ── The bound ────────────────────────────────────────────────────────────

  /** Two failures less than a window apart are fewer than two full windows apart in the log. */
  lemma CloseFailures(log: seq<Time>, starts: seq<nat>, max: nat, i: nat, j: nat)
    requires Windows(log, starts, max) && i <= j < |log| && log[j] < log[i] + WINDOW_SECONDS
    ensures j - i < 2 * max - 1
  {
    if starts[i] != starts[j] {
      var m := starts[j];
      assert log[starts[i]] + WINDOW_SECONDS <= log[m];
      assert log[m] <= log[j];
      assert starts[i] < i;
      assert starts[m-1] == starts[i];
    }
  }

  function Within(from: Time): Time -> bool {
    (t: Time) => from <= t < from + WINDOW_SECONDS
  }

  lemma KeptUpFront<T(!new)>(keep: T -> bool, s: seq<T>, n: nat)
    requires n <= |s| && forall i :: n <= i < |s| ==> !keep(s[i])
    ensures |Filter(keep, s)| <= n
  {
    assert s == s[..n] + s[n..];
    FilterConcat(keep, s[..n], s[n..]);
    FilterNotLonger(keep, s[..n]);
    FilterAll(keep, s[n..]);
  }

  /** If any two kept rows are fewer than `n` apart, at most `n` are kept. */
  lemma {:induction false} CloseMeansFew<T(!new)>(keep: T -> bool, s: seq<T>, n: nat)
    requires forall i, j :: 0 <= i <= j < |s| && keep(s[i]) && keep(s[j]) ==> j - i < n
    ensures |Filter(keep, s)| <= n
  {
    if s == [] {
    } else if !keep(s[0]) {
      CloseMeansFew(keep, s[1..], n);
    } else if |s| <= n {
      FilterNotLonger(keep, s);
    } else {
      KeptUpFront(keep, s, n);
    }
  }

  /**
   * Over every sequence of attempts, an interval as long as the window holds at most 2·MAX − 1 counted
   * failures of a key: of one machine always, of one address as long as nobody signs in under it meanwhile.
   */
  lemma SlidingWindowBound(attempts: seq<Attempt>, k: Key, from: Time)
    requires InOrder(attempts)
    ensures |Filter(Within(from), Failures(attempts, k))| <= 2 * Max(k) - 1
  {
    var log := Failures(attempts, k);
    var starts := RunTracks(attempts, k);
    forall i, j | 0 <= i <= j < |log| && Within(from)(log[i]) && Within(from)(log[j]) ensures j - i < 2 * Max(k) - 1 {
      CloseFailures(log, starts, Max(k), i, j);
    }
    CloseMeansFew(Within(from), log, 2 * Max(k) - 1);
  }

  // ── The bound is reached ─────────────────────────────────────────────────

  /** `n` failures of one address at one moment, from no known machine. */
  function Fails(email: string, at: Time, n: nat): seq<Attempt> {
    seq(n, i => Attempt(email, None, false, at))
  }

  function Times(at: Time, n: nat): seq<Time> {
    seq(n, i => at)
  }

  lemma OneMore(before: seq<Attempt>, email: string, at: Time)
    requires Value(After(before), Email(email), at) < MAX_PER_EMAIL
    ensures var a := Attempt(email, None, false, at);
            && After(before + [a]) == Counted(After(before), Email(email), at)
            && Failures(before + [a], Email(email)) == Failures(before, Email(email)) + [at]
  {
    var a := Attempt(email, None, false, at);
    assert (before + [a])[..|before|] == before;
    assert KeysOf(email, None) == [Email(email)] && [Email(email)][..0] == [];
    assert Allowed(After(before), email, None, at);
    var keys := KeysOf(email, None);
    assert keys[..|keys|-1] == [] && keys[|keys|-1] == Email(email);
    assert CountedAll(After(before), keys[..|keys|-1], at) == After(before);
    assert CountedAll(After(before), keys, at) == Counted(After(before), Email(email), at);
  }

  /** Between the two states `n` failures were counted under the key at `at`, in the window open then or a new one. */
  ghost predicate Rose(c: Counters, log: seq<Time>, d: Counters, more: seq<Time>, k: Key, at: Time, n: nat) {
    && more == log + Times(at, n)
    && Value(d, k, at) == Value(c, k, at) + n
    && (n == 0 ==> At(d, k) == At(c, k))
    && (n > 0 ==> k in d && d[k].until == if Value(c, k, at) > 0 then c[k].until else Some(at + WINDOW_SECONDS))
  }

  /** The same about two lists of attempts, the second going on from the first. */
  ghost predicate RoseOver(before: seq<Attempt>, after: seq<Attempt>, k: Key, at: Time, n: nat) {
    Rose(After(before), Failures(before, k), After(after), Failures(after, k), k, at, n)
  }

  lemma NothingRose(before: seq<Attempt>, k: Key, at: Time)
    ensures RoseOver(before, before, k, at, 0)
  {
    assert Failures(before, k) + Times(at, 0) == Failures(before, k);
  }

  lemma RoseOnce(c: Counters, log: seq<Time>, d: Counters, more: seq<Time>, e: Counters, k: Key, at: Time, n: nat)
    requires Rose(c, log, d, more, k, at, n) && At(e, k) == At(Counted(d, k, at), k)
    ensures Rose(c, log, e, more + [at], k, at, n + 1)
  {
    assert Times(at, n + 1) == Times(at, n) + [at];
    assert k in e && e[k] == Counted(d, k, at)[k];
  }

  /** Failures up to the limit are all counted. */
  lemma {:induction false} RushCounted(before: seq<Attempt>, email: string, at: Time, n: nat)
    requires Value(After(before), Email(email), at) + n <= MAX_PER_EMAIL
    ensures RoseOver(before, before + Fails(email, at, n), Email(email), at, n)
  {
    if n == 0 {
      NoFail(before, email, at);
    } else {
      RushCounted(before, email, at, n - 1);
      OneMoreFail(before, email, at, n);
    }
  }

  lemma NoFail(before: seq<Attempt>, email: string, at: Time)
    ensures RoseOver(before, before + Fails(email, at, 0), Email(email), at, 0)
  {
    NothingRose(before, Email(email), at);
    assert before + Fails(email, at, 0) == before;
  }

  lemma OneMoreFail(before: seq<Attempt>, email: string, at: Time, n: nat)
    requires n > 0 && Value(After(before), Email(email), at) + n <= MAX_PER_EMAIL
    requires RoseOver(before, before + Fails(email, at, n - 1), Email(email), at, n - 1)
    ensures RoseOver(before, before + Fails(email, at, n), Email(email), at, n)
  {
    LastFail(before, email, at, n);
    NextFail(before, before + Fails(email, at, n - 1), before + Fails(email, at, n), email, at, n - 1);
  }

  lemma LastFail(before: seq<Attempt>, email: string, at: Time, n: nat)
    requires n > 0
    ensures before + Fails(email, at, n) == before + Fails(email, at, n - 1) + [Attempt(email, None, false, at)]
  {
    assert Fails(email, at, n) == Fails(email, at, n - 1) + [Attempt(email, None, false, at)];
  }

  lemma NextFail(before: seq<Attempt>, mid: seq<Attempt>, after: seq<Attempt>, email: string, at: Time, n: nat)
    requires after == mid + [Attempt(email, None, false, at)]
    requires Value(After(before), Email(email), at) + n < MAX_PER_EMAIL
    requires RoseOver(before, mid, Email(email), at, n)
    ensures RoseOver(before, after, Email(email), at, n + 1)
  {
    OneMore(mid, email, at);
    RoseOnce(After(before), Failures(before, Email(email)), After(mid), Failures(mid, Email(email)),
             After(after), Email(email), at, n);
  }

  function Rush(email: string): seq<Attempt> {
    Fails(email, 0, 1) + Fails(email, 899, 4) + Fails(email, 900, 5)
  }

  lemma RushFailures(email: string)
    ensures Failures(Rush(email), Email(email)) == Times(0, 1) + Times(899, 4) + Times(900, 5)
  {
    var first := Fails(email, 0, 1);
    RushCounted([], email, 0, 1);
    assert [] + first == first;
    RushCounted(first, email, 899, 4);
    RushCounted(first + Fails(email, 899, 4), email, 900, 5);
    assert Failures([], Email(email)) + Times(0, 1) == Times(0, 1);
  }

  lemma RushInOrder(email: string)
    ensures InOrder(Rush(email))
  {
  }

  lemma AllWithin(from: Time, at: Time, n: nat)
    ensures Filter(Within(from), Times(at, n)) == if from <= at < from + WINDOW_SECONDS then Times(at, n) else []
  {
    FilterAll(Within(from), Times(at, n));
  }

  /** One failure opens a window, four come in its last second and five in the first of the next: nine in one interval. */
  lemma BoundIsReached(email: string)
    ensures InOrder(Rush(email))
    ensures |Filter(Within(1), Failures(Rush(email), Email(email)))| == 2 * MAX_PER_EMAIL - 1
  {
    RushInOrder(email);
    RushFailures(email);
    SplitWithin(4, 5);
  }

  // ── The same from one machine ────────────────────────────────────────────

  /** The `i`-th of endlessly many addresses. */
  function Stranger(i: nat): string {
    seq(i, j => 'x')
  }

  lemma StrangersDiffer(i: nat, j: nat)
    requires i != j
    ensures Stranger(i) != Stranger(j)
  {
    assert |Stranger(i)| == i && |Stranger(j)| == j;
  }

  /** `n` failures at one moment from one machine, each under an address of its own. */
  function Knocks(ip: string, at: Time, from: nat, n: nat): seq<Attempt> {
    seq(n, i requires 0 <= i => Attempt(Stranger(from + i), Some(ip), false, at))
  }

  /** No address from `from` on has a counter. */
  ghost predicate Unheard(c: Counters, from: nat) {
    forall i: nat :: i >= from ==> Email(Stranger(i)) !in c
  }

  lemma OneKnock(before: seq<Attempt>, ip: string, at: Time, from: nat)
    requires ip != "" && Email(Stranger(from)) !in After(before) && Value(After(before), Ip(ip), at) < MAX_PER_IP
    ensures var after := before + [Attempt(Stranger(from), Some(ip), false, at)];
            && At(After(after), Ip(ip)) == At(Counted(After(before), Ip(ip), at), Ip(ip))
            && Failures(after, Ip(ip)) == Failures(before, Ip(ip)) + [at]
  {
    var a := Attempt(Stranger(from), Some(ip), false, at);
    var c := After(before);
    assert (before + [a])[..|before|] == before;
    assert KeysOf(a.email, a.ip) == [Email(Stranger(from)), Ip(ip)];
    assert !Reached(c, Email(Stranger(from)), at) && !Reached(c, Ip(ip), at);
    assert Allowed(c, a.email, a.ip, at);
    TryAt(c, a, Ip(ip));
  }

  /** A failure under one address leaves the later ones without a counter. */
  lemma StillUnheard(c: Counters, a: Attempt, from: nat)
    requires Unheard(c, from) && a.email == Stranger(from)
    ensures Unheard(Try(c, a), from + 1)
  {
    forall i: nat | i >= from + 1 ensures Email(Stranger(i)) !in Try(c, a) {
      StrangersDiffer(i, from);
      TryAt(c, a, Email(Stranger(i)));
    }
  }

  lemma {:induction false} KnocksUnheard(before: seq<Attempt>, ip: string, at: Time, from: nat, n: nat)
    requires Unheard(After(before), from)
    ensures Unheard(After(before + Knocks(ip, at, from, n)), from + n)
  {
    if n == 0 {
      assert before + Knocks(ip, at, from, 0) == before;
    } else {
      var mid, a := before + Knocks(ip, at, from, n - 1), Attempt(Stranger(from + n - 1), Some(ip), false, at);
      KnocksUnheard(before, ip, at, from, n - 1);
      StillUnheard(After(mid), a, from + n - 1);
      LastKnock(before, ip, at, from, n);
      assert (mid + [a])[..|mid|] == mid;
    }
  }

  /** The `n`-th address of the row has no counter when its turn comes. */
  lemma NextUnheard(before: seq<Attempt>, ip: string, at: Time, from: nat, n: nat)
    requires Unheard(After(before), from)
    ensures Email(Stranger(from + n)) !in After(before + Knocks(ip, at, from, n))
  {
    KnocksUnheard(before, ip, at, from, n);
  }

  lemma NoKnock(before: seq<Attempt>, ip: string, at: Time, from: nat)
    ensures RoseOver(before, before + Knocks(ip, at, from, 0), Ip(ip), at, 0)
  {
    NothingRose(before, Ip(ip), at);
    assert before + Knocks(ip, at, from, 0) == before;
  }

  lemma OneMoreKnock(before: seq<Attempt>, ip: string, at: Time, from: nat, n: nat)
    requires ip != "" && Unheard(After(before), from) && Value(After(before), Ip(ip), at) + n < MAX_PER_IP
    requires RoseOver(before, before + Knocks(ip, at, from, n), Ip(ip), at, n)
    ensures RoseOver(before, before + Knocks(ip, at, from, n + 1), Ip(ip), at, n + 1)
  {
    LastKnock(before, ip, at, from, n + 1);
    NextUnheard(before, ip, at, from, n);
    NextKnock(before, before + Knocks(ip, at, from, n), before + Knocks(ip, at, from, n + 1), ip, at, from + n, n);
  }

  lemma {:induction false} KnocksCounted(before: seq<Attempt>, ip: string, at: Time, from: nat, n: nat)
    requires ip != "" && Unheard(After(before), from) && Value(After(before), Ip(ip), at) + n <= MAX_PER_IP
    ensures RoseOver(before, before + Knocks(ip, at, from, n), Ip(ip), at, n)
  {
    if n == 0 {
      NoKnock(before, ip, at, from);
    } else {
      KnocksCounted(before, ip, at, from, n - 1);
      OneMoreKnock(before, ip, at, from, n - 1);
    }
  }

  lemma LastKnock(before: seq<Attempt>, ip: string, at: Time, from: nat, n: nat)
    requires n > 0
    ensures before + Knocks(ip, at, from, n)
            == before + Knocks(ip, at, from, n - 1) + [Attempt(Stranger(from + n - 1), Some(ip), false, at)]
  {
    assert Knocks(ip, at, from, n) == Knocks(ip, at, from, n - 1) + [Attempt(Stranger(from + n - 1), Some(ip), false, at)];
  }

  lemma NextKnock(before: seq<Attempt>, mid: seq<Attempt>, after: seq<Attempt>, ip: string, at: Time, from: nat, n: nat)
    requires after == mid + [Attempt(Stranger(from), Some(ip), false, at)]
    requires ip != "" && Email(Stranger(from)) !in After(mid) && Value(After(before), Ip(ip), at) + n < MAX_PER_IP
    requires RoseOver(before, mid, Ip(ip), at, n)
    ensures RoseOver(before, after, Ip(ip), at, n + 1)
  {
    OneKnock(mid, ip, at, from);
    RoseOnce(After(before), Failures(before, Ip(ip)), After(mid), Failures(mid, Ip(ip)), After(after), Ip(ip), at, n);
  }

  function Siege(ip: string): seq<Attempt> {
    Knocks(ip, 0, 0, 1) + Knocks(ip, 899, 1, 19) + Knocks(ip, 900, 20, 20)
  }

  lemma SiegeFailures(ip: string)
    requires ip != ""
    ensures Failures(Siege(ip), Ip(ip)) == Times(0, 1) + Times(899, 19) + Times(900, 20)
  {
    var first := Knocks(ip, 0, 0, 1);
    KnocksCounted([], ip, 0, 0, 1);
    KnocksUnheard([], ip, 0, 0, 1);
    assert [] + first == first;
    KnocksCounted(first, ip, 899, 1, 19);
    KnocksUnheard(first, ip, 899, 1, 19);
    KnocksCounted(first + Knocks(ip, 899, 1, 19), ip, 900, 20, 20);
    assert Failures([], Ip(ip)) + Times(0, 1) == Times(0, 1);
  }

  lemma SiegeInOrder(ip: string)
    ensures InOrder(Siege(ip))
  {
  }

  /** One machine trying forty addresses around the end of a window: thirty-nine failures in one interval. */
  lemma MachineBoundIsReached(ip: string)
    requires ip != ""
    ensures InOrder(Siege(ip))
    ensures |Filter(Within(1), Failures(Siege(ip), Ip(ip)))| == 2 * MAX_PER_IP - 1
  {
    SiegeInOrder(ip);
    SiegeFailures(ip);
    SplitWithin(19, 20);
  }

  /** One moment before the interval and two inside it. */
  lemma SplitWithin(n: nat, m: nat)
    ensures |Filter(Within(1), Times(0, 1) + Times(899, n) + Times(900, m))| == n + m
  {
    FilterConcat(Within(1), Times(0, 1) + Times(899, n), Times(900, m));
    FilterConcat(Within(1), Times(0, 1), Times(899, n));
    AllWithin(1, 0, 1);
    AllWithin(1, 899, n);
    AllWithin(1, 900, m);
  }

  // ── The lock ─────────────────────────────────────────────────────────────

  function TryAll(c: Counters, attempts: seq<Attempt>): Counters {
    if attempts == [] then c else Try(TryAll(c, attempts[..|attempts|-1]), attempts[|attempts|-1])
  }

  lemma LockedStep(c: Counters, k: Key, a: Attempt)
    requires k in c && c[k].count >= Max(k) && c[k].until.Some? && a.at < c[k].until.value
    ensures k in Try(c, a) && Try(c, a)[k] == c[k]
    ensures k in KeysOf(a.email, a.ip) ==> !Allowed(c, a.email, a.ip, a.at)
  {
    assert Reached(c, k, a.at);
    TryAt(c, a, k);
  }

  /** Once a limit is reached every attempt under the key is refused, good password or not, until its window ends. */
  lemma {:induction false} LockedUntilWindowEnds(c: Counters, k: Key, attempts: seq<Attempt>)
    requires k in c && c[k].count >= Max(k) && c[k].until.Some?
    requires forall i :: 0 <= i < |attempts| ==> attempts[i].at < c[k].until.value
    ensures k in TryAll(c, attempts) && TryAll(c, attempts)[k] == c[k]
    ensures forall i :: 0 <= i < |attempts| && k in KeysOf(attempts[i].email, attempts[i].ip) ==>
              !Allowed(TryAll(c, attempts[..i]), attempts[i].email, attempts[i].ip, attempts[i].at)
  {
    if attempts != [] {
      var before, a := attempts[..|attempts|-1], attempts[|attempts|-1];
      LockedUntilWindowEnds(c, k, before);
      LockedStep(TryAll(c, before), k, a);
      assert forall i :: 0 <= i < |before| ==> before[..i] == attempts[..i];
    }
  }

  /** And when the window ends the key starts afresh: it alone refuses nobody. */
  lemma FreeAfterWindow(c: Counters, k: Key, now: Time)
    requires k in c ==> c[k].until.Some? && c[k].until.value <= now
    ensures !Reached(c, k, now) && Value(Counted(c, k, now), k, now) == 1
  {
  }
}
