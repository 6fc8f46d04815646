/**
 * The state of a partner's tariff is computed, never stored: the last verdict
 * and the content it was given for, compared with the content now.
 */
module TariffReview {
  import opened Options
  import opened Sequences
  import opened Tariffs
  import opened Fingerprint
  import opened FingerprintPrice
  import opened PlanChoice
  import opened RatePlans

  datatype State = DRAFT | CONFIRMED_NOW | REJECTED_NOW | STALE
  datatype Reason = NoContract | NoPricesSent | Awaiting | PricesRejected | PricesChanged | ConfirmedByPartner
  datatype Status = Status(state: State, reason: Reason, applies: bool)

  function OperatorTariffStatus(p: Plan, docs: seq<ContractDoc>, review: Option<Review>, current: Content): Status {
    var mine := DocsOfContract(docs, p.operatorContract, p.partner);
    match review
    case None =>
      if p.operatorContract.None? || p.operatorContract.value == "" then Status(DRAFT, NoContract, false)
      else if mine == [] then Status(DRAFT, NoPricesSent, false)
      else Status(DRAFT, Awaiting, false)
    case Some(r) =>
      if r.verdict == REJECTED then Status(REJECTED_NOW, PricesRejected, false)
      else if r.seen != current then Status(STALE, PricesChanged, false)
      else Status(CONFIRMED_NOW, ConfirmedByPartner, true)
  }

  /** The status shown for a stored plan; only a partner's plan has one. */
  function StatusOf(c: Collation, h: Hotel, id: Id): Option<Status> {
    if id in h.plans && h.plans[id].forOperator then
      Some(OperatorTariffStatus(h.plans[id], h.docs, if id in h.reviews then Some(h.reviews[id]) else None,
                                CurrentContent(c, h, id)))
    else None
  }

  predicate Applies(c: Collation, h: Hotel, id: Id) {
    StatusOf(c, h, id).Some? && StatusOf(c, h, id).value.applies
  }

  // ── The history of reviews ───────────────────────────────────────────────

  /** A recorded verdict and the hotel as it stood when it was given. */
  datatype Point = Point(verdict: Verdict, at: Hotel)

  /** What an event makes of the last recorded verdict of a plan. */
  ghost function NextPoint(c: Collation, s: Hotel, e: Event, id: Id, point: Option<Point>): Option<Point> {
    if Step(c, s, e).1 != Done then point
    else if e.ReviewPlan? && e.id == id then Some(Point(e.verdict, s))
    else if e.RemovePlan? && e.id == id then None
    else point
  }

  /** The last verdict recorded for the plan since it was created. */
  ghost function LastReview(c: Collation, h: Hotel, events: seq<Event>, id: Id): Option<Point> {
    if events == [] then None
    else
      var init := events[..|events|-1];
      NextPoint(c, Run(c, h, init), events[|events|-1], id, LastReview(c, h, init, id))
  }

  ghost predicate Recorded(c: Collation, h: Hotel, point: Option<Point>, id: Id) {
    && (point.None? <==> id !in h.reviews)
    && (point.Some? ==>
          && id in point.value.at.plans
          && point.value.at.plans[id].forOperator
          && Mine(point.value.at, point.value.at.plans[id]) != []
          && h.reviews[id] == Review(point.value.verdict, CurrentContent(c, point.value.at, id)))
  }

  lemma StepRecords(c: Collation, s: Hotel, e: Event, id: Id, point: Option<Point>)
    requires Recorded(c, s, point, id)
    ensures Recorded(c, Step(c, s, e).0, NextPoint(c, s, e, id, point), id)
  {
    if (e.ReviewPlan? || e.RemovePlan?) && e.id == id {
      VerdictRecords(c, s, e, id, point);
    } else {
      OthersLeaveReview(c, s, e, id);
    }
  }

  lemma VerdictRecords(c: Collation, s: Hotel, e: Event, id: Id, point: Option<Point>)
    requires Recorded(c, s, point, id) && (e.ReviewPlan? || e.RemovePlan?) && e.id == id
    ensures Recorded(c, Step(c, s, e).0, NextPoint(c, s, e, id, point), id)
  {
  }

  lemma OthersLeaveReview(c: Collation, s: Hotel, e: Event, id: Id)
    requires !((e.ReviewPlan? || e.RemovePlan?) && e.id == id)
    ensures var after := Step(c, s, e).0;
            (id in after.reviews <==> id in s.reviews) && (id in s.reviews ==> after.reviews[id] == s.reviews[id])
  {
  }

  /** What is stored about reviews is the last verdict, given for the content current at that moment. */
  lemma {:induction false} ReviewsAreHistory(c: Collation, h: Hotel, events: seq<Event>, id: Id)
    requires h.reviews == map[]
    ensures Recorded(c, Run(c, h, events), LastReview(c, h, events, id), id)
  {
    if events != [] {
      var init := events[..|events|-1];
      ReviewsAreHistory(c, h, init, id);
      StepRecords(c, Run(c, h, init), events[|events|-1], id, LastReview(c, h, init, id));
    }
  }

  /** A tariff applies exactly when the last verdict was a confirmation of the content as it stands now. */
  lemma AppliesIff(c: Collation, h: Hotel, events: seq<Event>, id: Id)
    requires h.reviews == map[]
    ensures var now, last := Run(c, h, events), LastReview(c, h, events, id);
            Applies(c, now, id) <==>
              && id in now.plans && now.plans[id].forOperator
              && last.Some? && last.value.verdict == CONFIRMED
              && id in last.value.at.plans
              && CurrentContent(c, last.value.at, id) == CurrentContent(c, now, id)
  {
    ReviewsAreHistory(c, h, events, id);
  }

  /**
   * In terms of what was agreed: while a tariff applies, its terms, every document that concerns it and its price
   * rows are those of the moment of the last verdict, a confirmation; and when no sheet and no price row repeats a
   * key it applies exactly while they are.
   */
  lemma AppliesWhileAgreed(c: Collation, h: Hotel, events: seq<Event>, id: Id)
    requires h.reviews == map[] && Orders(c) && PlansOk(h.plans)
    requires WellFormedDocs(Run(c, h, events).docs) && WellFormedDocs(LastReviewed(c, h, events, id).docs)
    ensures Applies(c, Run(c, h, events), id) ==> Agreed(c, h, events, id)
    ensures id in Run(c, h, events).plans && Repeatless(Run(c, h, events), id)
            && id in LastReviewed(c, h, events, id).plans && Repeatless(LastReviewed(c, h, events, id), id) ==>
              (Applies(c, Run(c, h, events), id) <==> Run(c, h, events).plans[id].forOperator && Agreed(c, h, events, id))
  {
    AppliesIff(c, h, events, id);
    ReviewsAreHistory(c, h, events, id);
    RunKeepsPlansOk(c, h, events);
    ReviewedStateIsReached(c, h, events, id);
    var now, past := Run(c, h, events), LastReviewed(c, h, events, id);
    if id in now.plans && id in past.plans {
      if CurrentContent(c, past, id) == CurrentContent(c, now, id) {
        FingerprintTellsApart(c, now.docs, past.docs, now.plans[id], past.plans[id], now.tables, past.tables);
      }
      if Repeatless(now, id) && Repeatless(past, id) {
        SameFingerprintIff(c, now.docs, past.docs, now.plans[id], past.plans[id], now.tables, past.tables);
      }
    }
  }

  /** The last verdict confirmed the plan as it is: same terms, documents answered both ways, same price rows. */
  ghost predicate Agreed(c: Collation, h: Hotel, events: seq<Event>, id: Id) {
    var now, past := Run(c, h, events), LastReviewed(c, h, events, id);
    && LastReview(c, h, events, id).Some? && LastReview(c, h, events, id).value.verdict == CONFIRMED
    && id in now.plans && id in past.plans
    && SameTerms(now.plans[id], past.plans[id])
    && Answered(now.docs, now.plans[id], past.docs, past.plans[id])
    && Answered(past.docs, past.plans[id], now.docs, now.plans[id])
    && multiset(PlanPrices(now.tables, id)) == multiset(PlanPrices(past.tables, id))
  }

  /** No sheet of the plan's contract and no price row of the plan repeats a key. */
  ghost predicate Repeatless(h: Hotel, id: Id)
    requires id in h.plans
  {
    DistinctDocs(h.docs, h.plans[id]) && OneRowPerKey(PlanPrices(h.tables, id))
  }

  /** The state shown follows from the last verdict and from whether its content still stands. */
  lemma StateIff(c: Collation, h: Hotel, events: seq<Event>, id: Id)
    requires h.reviews == map[] && StatusOf(c, Run(c, h, events), id).Some?
    ensures var now, last := Run(c, h, events), LastReview(c, h, events, id);
            var status := StatusOf(c, now, id).value;
            && (status.state == DRAFT <==> last.None?)
            && (status.state == REJECTED_NOW <==> last.Some? && last.value.verdict == REJECTED)
            && (status.state == CONFIRMED_NOW <==> Applies(c, now, id))
            && (status.state == STALE <==> last.Some? && last.value.verdict == CONFIRMED && !Applies(c, now, id))
            && (status.reason == PricesRejected <==> status.state == REJECTED_NOW)
            && (status.reason == PricesChanged <==> status.state == STALE)
            && (status.reason == ConfirmedByPartner <==> status.state == CONFIRMED_NOW)
            && var contract := now.plans[id].operatorContract;
               && (status.reason == NoContract <==> last.None? && (contract.None? || contract.value == ""))
               && (status.reason == NoPricesSent <==> last.None? && contract.Some? && contract.value != "" && Mine(now, now.plans[id]) == [])
               && (status.reason == Awaiting <==> last.None? && Mine(now, now.plans[id]) != [])
  {
    ReviewsAreHistory(c, h, events, id);
  }

  /** Nothing is confirmed against an empty sheet: a tariff that applies has documents now, as it had at review. */
  lemma AppliesOverDocuments(c: Collation, h: Hotel, events: seq<Event>, id: Id)
    requires h.reviews == map[] && Applies(c, Run(c, h, events), id)
    ensures Mine(Run(c, h, events), Run(c, h, events).plans[id]) != []
  {
    ReviewsAreHistory(c, h, events, id);
    var now, past := Run(c, h, events), LastReview(c, h, events, id).value.at;
    DocsPartLength(c, Mine(now, now.plans[id]));
    DocsPartLength(c, Mine(past, past.plans[id]));
  }

  lemma DocsPartLength(c: Collation, docs: seq<ContractDoc>)
    ensures |DocsPart(c, docs)| == |docs|
  {
    SortLength(c.docs, Map(ToDocLine(), docs));
  }

  /** A rejection outlives every edit and every resent document until the next verdict. */
  lemma RejectionStands(c: Collation, h: Hotel, before: seq<Event>, after: seq<Event>, id: Id)
    requires h.reviews == map[]
    requires LastReview(c, h, before, id).Some? && LastReview(c, h, before, id).value.verdict == REJECTED
    requires forall e :: e in after ==> !((e.ReviewPlan? || e.RemovePlan?) && e.id == id)
    ensures var status := StatusOf(c, Run(c, h, before + after), id);
            status.Some? ==> status.value == Status(REJECTED_NOW, PricesRejected, false)
  {
    LastReviewStands(c, h, before, after, id);
    ReviewsAreHistory(c, h, before + after, id);
  }

  lemma {:induction false} LastReviewStands(c: Collation, h: Hotel, before: seq<Event>, after: seq<Event>, id: Id)
    requires forall e :: e in after ==> !((e.ReviewPlan? || e.RemovePlan?) && e.id == id)
    ensures LastReview(c, h, before + after, id) == LastReview(c, h, before, id)
  {
    if after == [] {
      assert before + after == before;
    } else {
      var all := before + after;
      assert all[..|all|-1] == before + after[..|after|-1] && all[|all|-1] == after[|after|-1];
      LastReviewStands(c, h, before, after[..|after|-1], id);
    }
  }

  /**
   * A tariff that applies charges, for every stay and party, exactly what it
   * charged at the moment its confirmation was recorded.
   */
  lemma ConfirmedChargeHolds(c: Collation, h: Hotel, events: seq<Event>, id: Id,
                             room: Id, checkIn: Day, checkOut: Day, guests: nat, base: Option<Cents>, baseThen: Option<Cents>)
    requires Orders(c) && h.reviews == map[] && PlansOk(h.plans)
    requires Applies(c, Run(c, h, events), id)
    requires Orderly(Run(c, h, events).tables, id) && Orderly(LastReviewed(c, h, events, id).tables, id)
    ensures var now, past := Run(c, h, events), LastReviewed(c, h, events, id);
            && id in past.plans
            && ChargeFor(now.tables, now.plans[id], room, checkIn, checkOut, guests, base)
               == ChargeFor(past.tables, past.plans[id], room, checkIn, checkOut, guests, baseThen)
  {
    AppliesIff(c, h, events, id);
    ReviewsAreHistory(c, h, events, id);
    RunKeepsPlansOk(c, h, events);
    var now, past := Run(c, h, events), LastReviewed(c, h, events, id);
    ReviewedStateIsReached(c, h, events, id);
    FingerprintDeterminesCharge(c, now.docs, past.docs, now.plans[id], past.plans[id], now.tables, past.tables,
                                room, checkIn, checkOut, guests, base, baseThen);
  }

  /** The hotel at the last recorded review, or as it is when there is none. */
  ghost function LastReviewed(c: Collation, h: Hotel, events: seq<Event>, id: Id): Hotel {
    match LastReview(c, h, events, id)
    case Some(p) => p.at
    case None => Run(c, h, events)
  }

  lemma {:induction false} ReviewedStateIsReached(c: Collation, h: Hotel, events: seq<Event>, id: Id)
    requires PlansOk(h.plans)
    ensures LastReview(c, h, events, id).Some? ==> PlansOk(LastReview(c, h, events, id).value.at.plans)
  {
    if events != [] {
      ReviewedStateIsReached(c, h, events[..|events|-1], id);
      RunKeepsPlansOk(c, h, events[..|events|-1]);
    }
  }
}
