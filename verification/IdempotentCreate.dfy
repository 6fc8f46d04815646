/**
 * A partner's create request with an idempotency key, any number of them at
 * once: the early lookup, the preflight, the lock, the second lookup, the
 * insert and the lookup in the error handler are separate steps of one machine.
 */
module IdempotentCreate {
  import opened Options
  import opened Tariffs

  /** What a key is unique within. */
  datatype Slot = Slot(hotel: Id, partner: Id, key: string)

  /** A stored reservation of the partner, with the key and the body hash it was created under. */
  datatype Stored = Stored(id: Id, slot: Slot, hash: string)

  /** A failure on its way to the handler; `rejected` is the code the creation itself attached. */
  datatype Failure = Failure(status: Option<int>, rejected: bool)

  datatype Answer = Success(id: Id) | Error(status: Option<int>, rejected: bool)

  datatype Phase =
    | Arrived
    | Preflight
    | Entered
    | Locked
    | Rechecked
    | Inserted(row: Stored)
    | Committed(id: Id)
    | Failing(failure: Failure)
    | Answered(answer: Answer)

  /** `wrote` says whether this request's own insert was committed. */
  datatype Request = Request(slot: Slot, hash: string, phase: Phase, preflightStarted: bool, createEntered: bool, wrote: bool)

  datatype State = State(rows: seq<Stored>, locks: map<Slot, Id>, requests: map<Id, Request>)

  // ── Steps ────────────────────────────────────────────────────────────────

  datatype Lookup = Absent | Same(id: Id) | Different

  /** The partner's reservation under the request's key: none, with its body, or with another one. */
  function Find(rows: seq<Stored>, slot: Slot, hash: string): Lookup {
    if rows == [] then Absent
    else if rows[0].slot == slot then (if rows[0].hash == hash then Same(rows[0].id) else Different)
    else Find(rows[1..], slot, hash)
  }

  const CONFLICT := Failure(Some(409), false)

  datatype CommitResult = Kept | LostAck | RolledBack

  datatype Event =
    | Arrive(req: Id, slot: Slot, hash: string)
    | EarlyLookup(req: Id)
    | PreflightPasses(req: Id)
    | TakeLock(req: Id)
    | Recheck(req: Id)
    | Refuse(req: Id, code: int)
    | Insert(req: Id, id: Id)
    | Commit(req: Id, result: CommitResult)
    | Return(req: Id)
    | Fail(req: Id, status: Option<int>)
    | CatchLookup(req: Id, lookupFails: bool)

  function To(s: State, req: Id, r: Request): State {
    s.(requests := s.requests[req := r])
  }

  /** The transaction is over: its lock goes with it. */
  function Unlock(s: State, slot: Slot): State {
    s.(locks := s.locks - {slot})
  }

  function InTransaction(p: Phase): bool {
    p.Locked? || p.Rechecked? || p.Inserted?
  }

  /** A refusal the handler may mark: it came from the preflight, so nothing was inserted. */
  function CertainlyRefused(r: Request, status: Option<int>): bool {
    r.preflightStarted && !r.createEntered && (status == Some(400) || status == Some(404) || status == Some(409))
  }

  function Outcome(r: Request, f: Failure): Answer {
    Error(f.status, f.rejected || CertainlyRefused(r, f.status))
  }

  /** An event whose request is not in the phase it needs changes nothing. */
  function Step(s: State, e: Event): State {
    match e
    case Arrive(req, slot, hash) =>
      if req in s.requests then s else To(s, req, Request(slot, hash, Arrived, false, false, false))
    case _ =>
      if e.req !in s.requests then s else Advance(s, e, s.requests[e.req])
  }

  function Advance(s: State, e: Event, r: Request): State
    requires !e.Arrive?
  {
    match e
    case EarlyLookup(req) =>
      if !r.phase.Arrived? then s
      else
        (match Find(s.rows, r.slot, r.hash)
         case Absent => To(s, req, r.(phase := Preflight, preflightStarted := true))
         case Same(id) => To(s, req, r.(phase := Answered(Success(id))))
         case Different => To(s, req, r.(phase := Failing(CONFLICT))))
    case PreflightPasses(req) =>
      if !r.phase.Preflight? then s else To(s, req, r.(phase := Entered, createEntered := true))
    case TakeLock(req) =>
      if !r.phase.Entered? || r.slot in s.locks then s
      else To(s, req, r.(phase := Locked)).(locks := s.locks[r.slot := req])
    case Recheck(req) =>
      if !r.phase.Locked? then s
      else
        (match Find(s.rows, r.slot, r.hash)
         case Absent => To(s, req, r.(phase := Rechecked))
         case Same(id) => Unlock(To(s, req, r.(phase := Answered(Success(id)))), r.slot)
         case Different => Unlock(To(s, req, r.(phase := Failing(CONFLICT))), r.slot))
    case Refuse(req, code) =>
      // Bad dates before the transaction; no room or no place inside it.
      if r.phase.Entered? then To(s, req, r.(phase := Failing(Failure(Some(code), true))))
      else if r.phase.Rechecked? then Unlock(To(s, req, r.(phase := Failing(Failure(Some(code), true)))), r.slot)
      else s
    case Insert(req, id) =>
      if !r.phase.Rechecked? then s else To(s, req, r.(phase := Inserted(Stored(id, r.slot, r.hash))))
    case Commit(req, result) =>
      if !r.phase.Inserted? then s
      else
        (match result
         case Kept => Unlock(To(s, req, r.(phase := Committed(r.phase.row.id), wrote := true)), r.slot).(rows := s.rows + [r.phase.row])
         case LostAck =>
           Unlock(To(s, req, r.(phase := Failing(Failure(None, false)), wrote := true)), r.slot).(rows := s.rows + [r.phase.row])
         case RolledBack => Unlock(To(s, req, r.(phase := Failing(Failure(None, false)))), r.slot))
    case Return(req) =>
      if !r.phase.Committed? then s else To(s, req, r.(phase := Answered(Success(r.phase.id))))
    case Fail(req, status) =>
      // Anything unforeseen: a lookup, the preflight, the transaction or the work after it throws.
      if r.phase.Failing? || r.phase.Answered? then s
      else if InTransaction(r.phase) then Unlock(To(s, req, r.(phase := Failing(Failure(status, false)))), r.slot)
      else To(s, req, r.(phase := Failing(Failure(status, false))))
    case CatchLookup(req, lookupFails) =>
      if !r.phase.Failing? then s
      else if lookupFails then To(s, req, r.(phase := Answered(Error(None, false))))
      else
        (match Find(s.rows, r.slot, r.hash)
         case Absent => To(s, req, r.(phase := Answered(Outcome(r, r.phase.failure))))
         case Same(id) => To(s, req, r.(phase := Answered(Success(id))))
         case Different => To(s, req, r.(phase := Answered(Error(CONFLICT.status, CONFLICT.rejected)))))
    case Arrive(_, _, _) => s
  }

  function Run(s: State, events: seq<Event>): State {
    if events == [] then s else Step(Run(s, events[..|events|-1]), events[|events|-1])
  }

  // ── The invariant ────────────────────────────────────────────────────────

  ghost predicate OnePerKey(rows: seq<Stored>) {
    forall i, j :: 0 <= i < j < |rows| ==> rows[i].slot != rows[j].slot
  }

  ghost predicate NoRow(rows: seq<Stored>, slot: Slot) {
    forall row :: row in rows ==> row.slot != slot
  }

  /** What one request's phase says about the store. */
  ghost predicate Sound(s: State, req: Id, r: Request) {
    && (InTransaction(r.phase) ==> r.slot in s.locks && s.locks[r.slot] == req)
    && (r.phase.Rechecked? || r.phase.Inserted? ==> NoRow(s.rows, r.slot))
    && (r.phase.Inserted? ==> r.phase.row.slot == r.slot && r.phase.row.hash == r.hash)
    && (r.phase.Committed? ==> Stored(r.phase.id, r.slot, r.hash) in s.rows)
    && (r.phase.Answered? && r.phase.answer.Success? ==> Stored(r.phase.answer.id, r.slot, r.hash) in s.rows)
    && (r.phase.Arrived? ==> !r.preflightStarted && !r.createEntered && !r.wrote)
    && (r.phase.Preflight? ==> r.preflightStarted && !r.createEntered && !r.wrote)
    && (r.phase.Entered? || InTransaction(r.phase) || r.phase.Committed? ==> r.createEntered)
    && (r.wrote ==> r.createEntered && (r.phase.Committed? || r.phase.Failing? || r.phase.Answered?))
    && (r.wrote && r.phase.Failing? ==> !r.phase.failure.rejected)
    && (r.wrote && r.phase.Answered? && r.phase.answer.Error? ==> !r.phase.answer.rejected)
  }

  ghost predicate Inv(s: State) {
    && OnePerKey(s.rows)
    && (forall req :: req in s.requests ==> Sound(s, req, s.requests[req]))
  }

  lemma {:induction false} FindMeaning(rows: seq<Stored>, slot: Slot, hash: string)
    ensures match Find(rows, slot, hash)
            case Absent => NoRow(rows, slot)
            case Same(id) => Stored(id, slot, hash) in rows
            case Different => exists row :: row in rows && row.slot == slot && row.hash != hash
  {
    if rows != [] {
      FindMeaning(rows[1..], slot, hash);
      if rows[0].slot == slot {
        assert rows[0] in rows;
        assert rows[0] == Stored(rows[0].id, slot, rows[0].hash);
      }
    }
  }

  /** A request's own step is sound; no other request notices it unless a row or a lock changed. */
  lemma KeepsOthers(s: State, t: State, req: Id, other: Id)
    requires other in s.requests && Sound(s, other, s.requests[other])
    requires forall slot :: slot in s.locks && s.locks[slot] != req ==> slot in t.locks && t.locks[slot] == s.locks[slot]
    requires s.rows <= t.rows
    requires forall i :: |s.rows| <= i < |t.rows| ==> t.rows[i].slot in s.locks && s.locks[t.rows[i].slot] == req
    requires other != req
    ensures Sound(t, other, s.requests[other])
  {
    var r := s.requests[other];
    assert forall row :: row in s.rows ==> row in t.rows;
    if r.phase.Rechecked? || r.phase.Inserted? {
      forall row | row in t.rows ensures row.slot != r.slot {
        if row !in s.rows {
          var i :| 0 <= i < |t.rows| && t.rows[i] == row;
          assert i >= |s.rows|;
        }
      }
    }
  }

  lemma CommitSound(s: State, req: Id, result: CommitResult)
    requires Inv(s) && req in s.requests && s.requests[req].phase.Inserted?
    ensures var t := Step(s, Commit(req, result));
            req in t.requests && Sound(t, req, t.requests[req]) && OnePerKey(t.rows)
  {
    var r := s.requests[req];
    assert Sound(s, req, r);
    assert r.phase.row == Stored(r.phase.row.id, r.slot, r.hash);
    assert forall i :: 0 <= i < |s.rows| ==> s.rows[i] in s.rows;
    if result != RolledBack {
      assert r.phase.row in s.rows + [r.phase.row];
    }
  }

  lemma OwnStepSound(s: State, e: Event)
    requires Inv(s) && !e.Arrive? && e.req in s.requests
    ensures e.req in Step(s, e).requests && Sound(Step(s, e), e.req, Step(s, e).requests[e.req])
    ensures OnePerKey(Step(s, e).rows)
  {
    var r := s.requests[e.req];
    assert Sound(s, e.req, r);
    match e
    case Commit(req, result) =>
      if r.phase.Inserted? {
        CommitSound(s, req, result);
      }
    case EarlyLookup(_) => FindMeaning(s.rows, r.slot, r.hash);
    case Recheck(_) => FindMeaning(s.rows, r.slot, r.hash);
    case CatchLookup(_, _) => FindMeaning(s.rows, r.slot, r.hash);
    case _ =>
  }

  lemma StepFrame(s: State, e: Event, other: Id)
    requires Inv(s) && !e.Arrive? && e.req in s.requests && other in s.requests && other != e.req
    ensures other in Step(s, e).requests && Step(s, e).requests[other] == s.requests[other]
    ensures Sound(Step(s, e), other, s.requests[other])
  {
    var t, r := Step(s, e), s.requests[e.req];
    assert Sound(s, e.req, r);
    KeepsOthers(s, t, e.req, other);
  }

  lemma StepKeepsInv(s: State, e: Event)
    requires Inv(s)
    ensures Inv(Step(s, e))
  {
    var t := Step(s, e);
    if e.Arrive? {
      forall req | req in t.requests ensures Sound(t, req, t.requests[req]) {
        assert req in s.requests ==> Sound(s, req, s.requests[req]);
      }
    } else if e.req in s.requests {
      OwnStepSound(s, e);
      forall req | req in t.requests && req != e.req ensures Sound(t, req, t.requests[req]) {
        assert req in s.requests;
        StepFrame(s, e, req);
      }
    }
  }

  const START := State([], map[], map[])

  lemma {:induction false} RunKeepsInv(events: seq<Event>)
    ensures Inv(Run(START, events))
  {
    if events != [] {
      RunKeepsInv(events[..|events|-1]);
      StepKeepsInv(Run(START, events[..|events|-1]), events[|events|-1]);
    }
  }

  // ── Exactly once ─────────────────────────────────────────────────────────

  /**
   * In every interleaving: one reservation per hotel, partner and key; every success under
   * the key names it and was asked with its body; a request marked rejected stored nothing.
   */
  lemma ExactlyOnce(events: seq<Event>)
    ensures var s := Run(START, events);
            && OnePerKey(s.rows)
            && (forall req :: req in s.requests && s.requests[req].phase.Answered? && s.requests[req].phase.answer.Success? ==>
                  forall row :: row in s.rows && row.slot == s.requests[req].slot ==>
                    row == Stored(s.requests[req].phase.answer.id, row.slot, s.requests[req].hash))
            && (forall req :: req in s.requests && s.requests[req].phase.Answered? && s.requests[req].phase.answer.Success? ==>
                  Stored(s.requests[req].phase.answer.id, s.requests[req].slot, s.requests[req].hash) in s.rows)
            && (forall req :: req in s.requests && s.requests[req].phase.Answered? && s.requests[req].phase.answer.Error?
                              && s.requests[req].phase.answer.rejected ==>
                  !s.requests[req].wrote)
  {
    RunKeepsInv(events);
    var s := Run(START, events);
    forall req, row | req in s.requests && s.requests[req].phase.Answered? && s.requests[req].phase.answer.Success?
                      && row in s.rows && row.slot == s.requests[req].slot
      ensures row == Stored(s.requests[req].phase.answer.id, row.slot, s.requests[req].hash)
    {
      var r := s.requests[req];
      assert Sound(s, req, r);
      SameSlotSameRow(s.rows, row, Stored(r.phase.answer.id, r.slot, r.hash));
    }
    forall req | req in s.requests ensures Sound(s, req, s.requests[req]) {
    }
  }

  lemma SameSlotSameRow(rows: seq<Stored>, a: Stored, b: Stored)
    requires OnePerKey(rows) && a in rows && b in rows && a.slot == b.slot
    ensures a == b
  {
    var i :| 0 <= i < |rows| && rows[i] == a;
    var j :| 0 <= j < |rows| && rows[j] == b;
  }

  // ── Requests that find the reservation there ─────────────────────────────

  /** The only answer once the reservation is stored, short of the handler's lookup failing. */
  function LateAnswer(row: Stored, hash: string): Answer {
    if hash == row.hash then Success(row.id) else Error(Some(409), false)
  }

  ghost predicate Late(s: State, row: Stored, req: Id) {
    && row in s.rows
    && req in s.requests
    && var r := s.requests[req];
    && r.slot == row.slot
    && (r.phase.Answered? ==> r.phase.answer == LateAnswer(row, r.hash) || r.phase.answer == Error(None, false))
  }

  lemma {:induction false} FindStored(rows: seq<Stored>, row: Stored, hash: string)
    requires OnePerKey(rows) && row in rows
    ensures Find(rows, row.slot, hash) == if hash == row.hash then Same(row.id) else Different
  {
    if rows[0] != row {
      assert rows[0].slot != row.slot by {
        if rows[0].slot == row.slot {
          SameSlotSameRow(rows, rows[0], row);
        }
      }
      FindStored(rows[1..], row, hash);
    }
  }

  lemma OwnStepKeepsLate(s: State, e: Event, row: Stored)
    requires Inv(s) && !e.Arrive? && Late(s, row, e.req)
    ensures Late(Step(s, e), row, e.req)
  {
    var r := s.requests[e.req];
    assert Sound(s, e.req, r);
    FindStored(s.rows, row, r.hash);
    if r.phase.Committed? {
      SameSlotSameRow(s.rows, row, Stored(r.phase.id, r.slot, r.hash));
    }
  }

  lemma StepKeepsLate(s: State, e: Event, row: Stored, req: Id)
    requires Inv(s) && Late(s, row, req)
    ensures Late(Step(s, e), row, req)
  {
    if !e.Arrive? && e.req in s.requests {
      if e.req == req {
        OwnStepKeepsLate(s, e, row);
      } else {
        StepFrame(s, e, req);
      }
    }
  }

  /**
   * Once the reservation is stored, every request under its key that is still unanswered, however far it
   * has come, can only be answered with that reservation for the same body and with a conflict for another,
   * short of the handler's lookup failing; none is told that it was rejected.
   */
  lemma {:induction false} LateRequests(events: seq<Event>, later: seq<Event>, row: Stored, req: Id)
    requires var s := Run(START, events);
             row in s.rows && req in s.requests && !s.requests[req].phase.Answered? && s.requests[req].slot == row.slot
    ensures Late(Run(Run(START, events), later), row, req) && Inv(Run(Run(START, events), later))
  {
    if later == [] {
      RunKeepsInv(events);
    } else {
      LateRequests(events, later[..|later|-1], row, req);
      var mid := Run(Run(START, events), later[..|later|-1]);
      StepKeepsInv(mid, later[|later|-1]);
      StepKeepsLate(mid, later[|later|-1], row, req);
    }
  }

  // ── What a request achieves ──────────────────────────────────────────────

  lemma RunThen(s: State, events: seq<Event>, e: Event)
    ensures Run(s, events + [e]) == Step(Run(s, events), e)
  {
    assert (events + [e])[..|events|] == events;
  }

  /** The steps of a creation: the lock, the second lookup, the insert, the commit, the answer. */
  function Creation(req: Id, id: Id): seq<Event> {
    [TakeLock(req), Recheck(req), Insert(req, id), Commit(req, Kept), Return(req)]
  }

  lemma CreationRun(s: State, req: Id, id: Id)
    ensures Run(s, Creation(req, id))
            == Step(Step(Step(Step(Step(s, TakeLock(req)), Recheck(req)), Insert(req, id)), Commit(req, Kept)), Return(req))
  {
    RunThen(s, [], TakeLock(req));
    RunThen(s, [TakeLock(req)], Recheck(req));
    RunThen(s, [TakeLock(req), Recheck(req)], Insert(req, id));
    RunThen(s, [TakeLock(req), Recheck(req), Insert(req, id)], Commit(req, Kept));
    RunThen(s, [TakeLock(req), Recheck(req), Insert(req, id), Commit(req, Kept)], Return(req));
    assert [] + [TakeLock(req)] == [TakeLock(req)];
    assert [TakeLock(req)] + [Recheck(req)] == [TakeLock(req), Recheck(req)];
    assert [TakeLock(req), Recheck(req)] + [Insert(req, id)] == [TakeLock(req), Recheck(req), Insert(req, id)];
    assert [TakeLock(req), Recheck(req), Insert(req, id)] + [Commit(req, Kept)]
           == [TakeLock(req), Recheck(req), Insert(req, id), Commit(req, Kept)];
    assert [TakeLock(req), Recheck(req), Insert(req, id), Commit(req, Kept)] + [Return(req)] == Creation(req, id);
    assert Run(s, []) == s;
  }

  /** Nothing is stored under the key: an undisturbed creation stores the reservation, says so and gives the lock back. */
  lemma CreationSucceeds(s: State, req: Id, id: Id)
    requires req in s.requests && s.requests[req].phase.Entered? && s.requests[req].slot !in s.locks
    requires NoRow(s.rows, s.requests[req].slot)
    ensures var u, r := Run(s, Creation(req, id)), s.requests[req];
            && u.rows == s.rows + [Stored(id, r.slot, r.hash)]
            && u.requests == s.requests[req := r.(phase := Answered(Success(id)), wrote := true)]
            && u.locks == s.locks
  {
    CreationRun(s, req, id);
    var r := s.requests[req];
    FindMeaning(s.rows, r.slot, r.hash);
  }

  /** The reservation is stored already: either lookup answers the same body with it and refuses another. */
  lemma StoredIsFound(s: State, req: Id, row: Stored)
    requires Inv(s) && req in s.requests && row in s.rows && row.slot == s.requests[req].slot
    ensures var r := s.requests[req];
            var found := if r.hash == row.hash then Answered(Success(row.id)) else Failing(Failure(Some(409), false));
            && (r.phase.Arrived? ==> Step(s, EarlyLookup(req)) == s.(requests := s.requests[req := r.(phase := found)]))
            && (r.phase.Locked? ==>
                  Step(s, Recheck(req)) == s.(requests := s.requests[req := r.(phase := found)], locks := s.locks - {r.slot}))
  {
    FindStored(s.rows, row, s.requests[req].hash);
  }

  /** A new request goes through to its creation when nothing is stored under its key. */
  lemma ArrivalEnters(s: State, req: Id, slot: Slot, hash: string)
    requires req !in s.requests && NoRow(s.rows, slot)
    ensures Run(s, [Arrive(req, slot, hash), EarlyLookup(req), PreflightPasses(req)])
            == s.(requests := s.requests[req := Request(slot, hash, Entered, true, true, false)])
  {
    RunThen(s, [], Arrive(req, slot, hash));
    RunThen(s, [Arrive(req, slot, hash)], EarlyLookup(req));
    RunThen(s, [Arrive(req, slot, hash), EarlyLookup(req)], PreflightPasses(req));
    assert [] + [Arrive(req, slot, hash)] == [Arrive(req, slot, hash)];
    assert [Arrive(req, slot, hash)] + [EarlyLookup(req)] == [Arrive(req, slot, hash), EarlyLookup(req)];
    assert [Arrive(req, slot, hash), EarlyLookup(req)] + [PreflightPasses(req)]
           == [Arrive(req, slot, hash), EarlyLookup(req), PreflightPasses(req)];
    assert Run(s, []) == s;
    FindMeaning(s.rows, slot, hash);
  }

  lemma {:induction false} RunConcat(s: State, a: seq<Event>, b: seq<Event>)
    ensures Run(s, a + b) == Run(Run(s, a), b)
  {
    if b == [] {
      assert a + b == a;
    } else {
      assert (a + b)[..|a + b|-1] == a + b[..|b|-1];
      RunConcat(s, a, b[..|b|-1]);
    }
  }

  /** After any interleaving, a new request under a key that is neither stored nor locked can be made and succeeds. */
  lemma NewKeySucceeds(events: seq<Event>, req: Id, slot: Slot, hash: string, id: Id)
    requires var s := Run(START, events); req !in s.requests && slot !in s.locks && NoRow(s.rows, slot)
    ensures var s := Run(START, events);
            var u := Run(START, events + [Arrive(req, slot, hash), EarlyLookup(req), PreflightPasses(req)] + Creation(req, id));
            && u.rows == s.rows + [Stored(id, slot, hash)]
            && req in u.requests && u.requests[req].phase == Answered(Success(id))
            && u.locks == s.locks
  {
    var s, coming := Run(START, events), [Arrive(req, slot, hash), EarlyLookup(req), PreflightPasses(req)];
    RunConcat(START, events + coming, Creation(req, id));
    RunConcat(START, events, coming);
    ArrivalEnters(s, req, slot, hash);
    CreationSucceeds(Run(s, coming), req, id);
  }

  /** Only a request inside its transaction holds a lock, and the lock is of its own key. */
  ghost predicate LocksHeld(s: State) {
    forall slot :: slot in s.locks ==> HeldBy(s, slot)
  }

  ghost predicate HeldBy(s: State, slot: Slot)
    requires slot in s.locks
  {
    s.locks[slot] in s.requests && s.requests[s.locks[slot]].slot == slot && InTransaction(s.requests[s.locks[slot]].phase)
  }

  lemma StepKeepsLocks(s: State, e: Event)
    requires Inv(s) && LocksHeld(s)
    ensures LocksHeld(Step(s, e))
  {
    var u := Step(s, e);
    forall slot | slot in u.locks ensures HeldBy(u, slot) {
      if !e.Arrive? && e.req in s.requests {
        assert Sound(s, e.req, s.requests[e.req]);
      }
      assert slot in s.locks ==> HeldBy(s, slot);
    }
  }

  /** In every interleaving a locked key is being worked on: no request leaves its lock behind. */
  lemma {:induction false} LocksAreHeld(events: seq<Event>)
    ensures LocksHeld(Run(START, events))
  {
    if events != [] {
      LocksAreHeld(events[..|events|-1]);
      RunKeepsInv(events[..|events|-1]);
      StepKeepsLocks(Run(START, events[..|events|-1]), events[|events|-1]);
    }
  }

  // ── What a failed request is told ────────────────────────────────────────

  /**
   * The handler of a failed request: a reservation stored under the key answers it, one of another body with a
   * conflict; otherwise it passes the failure on, marked rejected when the creation marked it, or when the preflight
   * had begun, the creation had not, and the status is one of 400, 404 and 409.
   */
  lemma HandlerTells(s: State, req: Id)
    requires Inv(s) && req in s.requests && s.requests[req].phase.Failing?
    ensures var r, u := s.requests[req], Step(s, CatchLookup(req, false));
            && u.rows == s.rows && u.locks == s.locks
            && u.requests[req].phase.Answered?
            && (forall row :: row in s.rows && row.slot == r.slot ==> u.requests[req].phase.answer == LateAnswer(row, r.hash))
            && (NoRow(s.rows, r.slot) ==>
                  u.requests[req].phase.answer
                  == Error(r.phase.failure.status,
                           r.phase.failure.rejected
                           || (r.preflightStarted && !r.createEntered && r.phase.failure.status in {Some(400), Some(404), Some(409)})))
  {
    var r := s.requests[req];
    FindMeaning(s.rows, r.slot, r.hash);
    forall row | row in s.rows && row.slot == r.slot ensures Find(s.rows, r.slot, r.hash) == if r.hash == row.hash then Same(row.id) else Different {
      FindStored(s.rows, row, r.hash);
    }
  }

  /** A refusal of the preflight or of the creation itself is told as certain; nothing else that goes wrong is. */
  lemma RefusalIsTold(s: State, req: Id, code: int)
    requires Inv(s) && req in s.requests && NoRow(s.rows, s.requests[req].slot)
    ensures s.requests[req].phase.Preflight? ==>
              var u := Step(Step(s, Fail(req, Some(code))), CatchLookup(req, false));
              u.requests[req].phase == Answered(Error(Some(code), code in {400, 404, 409}))
    ensures s.requests[req].phase.Entered? || s.requests[req].phase.Rechecked? ==>
              && (var u := Step(Step(s, Refuse(req, code)), CatchLookup(req, false));
                  u.requests[req].phase == Answered(Error(Some(code), true)))
              && (var u := Step(Step(s, Fail(req, Some(code))), CatchLookup(req, false));
                  u.requests[req].phase == Answered(Error(Some(code), false)))
  {
    assert Sound(s, req, s.requests[req]);
    FindMeaning(s.rows, s.requests[req].slot, s.requests[req].hash);
  }

  /** The acknowledgement of a commit is lost: the row is there and the handler answers with it. Rolled back, it is told as uncertain. */
  lemma LostAcknowledgement(s: State, req: Id)
    requires Inv(s) && req in s.requests && s.requests[req].phase.Inserted?
    ensures var row := s.requests[req].phase.row;
            && (var u := Step(Step(s, Commit(req, LostAck)), CatchLookup(req, false));
                u.rows == s.rows + [row] && u.requests[req].phase == Answered(Success(row.id)))
            && (var u := Step(Step(s, Commit(req, RolledBack)), CatchLookup(req, false));
                u.rows == s.rows && u.requests[req].phase == Answered(Error(None, false)))
  {
    var r := s.requests[req];
    assert Sound(s, req, r);
    FindMeaning(s.rows, r.slot, r.hash);
    StepKeepsInv(s, Commit(req, LostAck));
    assert r.phase.row in s.rows + [r.phase.row];
    FindStored(s.rows + [r.phase.row], r.phase.row, r.hash);
  }
}
