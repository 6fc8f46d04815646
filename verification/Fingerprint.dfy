/**
 * The fingerprint of a partner's tariff: the contract documents, the shape of
 * the plan and its prices from all three stores, each put into one order. The
 * hash is taken as injective, so the fingerprint is the content it is taken of.
 */
module Fingerprint {
  import opened Options
  import opened Sequences
  import opened Tariffs
  import opened CanonicalJson

  /** A price appendix of a contract, as the partner sent it. */
  datatype ContractDoc = ContractDoc(
    partner: Option<Id>,
    contractNumber: string,
    amendment: Option<string>,
    service: string,
    validFrom: Moment,
    validTo: Option<Moment>,
    vatRate: Option<int>,
    rows: Json)

  datatype DocLine = DocLine(contractNumber: string, amendment: Option<string>, service: string, validFrom: Moment,
                             validTo: Option<Moment>, vatRate: Option<int>, rows: Json)

  datatype PriceKind = STANDARD | SEASON | DAY

  /** A price row as the fingerprint sees it; occupancy `None` is "any number". */
  datatype PriceLine = PriceLine(kind: PriceKind, room: Id, occupancy: Option<nat>,
                                 dateFrom: Option<Day>, dateTo: Option<Day>, price: Cents, currency: string)

  datatype PlanShape = PlanShape(mealPlan: string, occupancyPricing: bool, modifierType: ModifierType, modifierValue: int,
                                 account: Option<Id>, customer: Option<Id>, guestKind: Option<GuestKind>, vatRate: Option<int>)

  datatype Content = Content(docs: seq<DocLine>, plan: PlanShape, prices: seq<PriceLine>)

  // ── The order of the lines ───────────────────────────────────────────────

  datatype DocKey = DocKey(service: string, amendment: string, validFrom: Moment)
  datatype PriceKey = PriceKey(kind: PriceKind, room: Id, dateFrom: Option<Day>, dateTo: Option<Day>, occupancy: Option<nat>)

  function DocKeyOf(d: DocLine): DocKey {
    DocKey(d.service, if d.amendment.Some? then d.amendment.value else "", d.validFrom)
  }

  function PriceKeyOf(r: PriceLine): PriceKey {
    PriceKey(r.kind, r.room, r.dateFrom, r.dateTo, r.occupancy)
  }

  /** The locale's order of sort keys: any order that ties exactly on equal keys. */
  datatype Collation = Collation(docs: (DocLine, DocLine) -> bool, prices: (PriceLine, PriceLine) -> bool)

  ghost predicate Orders(c: Collation) {
    && TotalPreorder(c.docs)
    && TotalPreorder(c.prices)
    && (forall x, y :: c.docs(x, y) && c.docs(y, x) <==> DocKeyOf(x) == DocKeyOf(y))
    && (forall x, y :: c.prices(x, y) && c.prices(y, x) <==> PriceKeyOf(x) == PriceKeyOf(y))
  }

  // ── The three parts ──────────────────────────────────────────────────────

  /** The documents of the contract the plan embodies, of its own partner. */
  function BelongsTo(contract: string, partner: Option<Id>): ContractDoc -> bool {
    (d: ContractDoc) => d.contractNumber == contract && (partner.None? || d.partner.None? || d.partner == partner)
  }

  function DocsOfContract(docs: seq<ContractDoc>, contract: Option<string>, partner: Option<Id>): seq<ContractDoc> {
    if contract.None? || contract.value == "" then [] else Filter(BelongsTo(contract.value, partner), docs)
  }

  function ToDocLine(): ContractDoc -> DocLine {
    (d: ContractDoc) => DocLine(d.contractNumber, d.amendment, d.service, d.validFrom, d.validTo, d.vatRate, Canonical(d.rows))
  }

  function DocsPart(c: Collation, docs: seq<ContractDoc>): seq<DocLine> {
    Sort(c.docs, Map(ToDocLine(), docs))
  }

  function ShapeOf(p: Plan): PlanShape {
    PlanShape(p.mealPlan, p.occupancyPricing, p.modifierType, p.modifierValue, p.account, p.customer, p.guestKind, p.vatRate)
  }

  function DayOfPlan(plan: Id): DayRate -> bool {
    (r: DayRate) => r.plan == plan
  }

  function SeasonOfPlan(plan: Id): Season -> bool {
    (r: Season) => r.plan == plan
  }

  function SeasonOfOther(plan: Id): Season -> bool {
    (r: Season) => r.plan != plan
  }

  function StandardOfPlan(plan: Id): StandardRate -> bool {
    (r: StandardRate) => r.plan == plan
  }

  /** Zero guests is not written into the fingerprint. */
  function Guests(occupancy: nat): Option<nat> {
    if occupancy == 0 then None else Some(occupancy)
  }

  function DayLine(): DayRate -> PriceLine {
    (r: DayRate) => PriceLine(DAY, r.room, Some(r.occupancy), Some(r.date), Some(r.date), r.price, r.currency)
  }

  function SeasonLine(): Season -> PriceLine {
    (r: Season) => PriceLine(SEASON, r.room, Guests(r.occupancy), Some(r.dateFrom), Some(r.dateTo), r.price, r.currency)
  }

  function StandardLine(): StandardRate -> PriceLine {
    (r: StandardRate) => PriceLine(STANDARD, r.room, Guests(r.occupancy), None, None, r.price, r.currency)
  }

  /** All three sources of a plan's prices: the days, the seasons, the standard prices. */
  function PlanPrices(t: PriceTables, plan: Id): seq<PriceLine> {
    Map(DayLine(), Filter(DayOfPlan(plan), t.days))
    + Map(SeasonLine(), Filter(SeasonOfPlan(plan), t.seasons))
    + Map(StandardLine(), Filter(StandardOfPlan(plan), t.standards))
  }

  function PricePart(c: Collation, t: PriceTables, plan: Id): seq<PriceLine> {
    Sort(c.prices, PlanPrices(t, plan))
  }

  function TariffFingerprint(c: Collation, docs: seq<ContractDoc>, p: Plan, t: PriceTables): Content {
    Content(DocsPart(c, DocsOfContract(docs, p.operatorContract, p.partner)), ShapeOf(p), PricePart(c, t, p.id))
  }

  // ── What the fingerprint tells apart ─────────────────────────────────────

  /** No plan has two different rows for one source, category, window and guest count. */
  ghost predicate OneRowPerKey(lines: seq<PriceLine>) {
    forall x, y :: x in lines && y in lines && PriceKeyOf(x) == PriceKeyOf(y) ==> x == y
  }

  /** Equal price parts mean equal rows; equal rows mean equal price parts once keys are unique. */
  lemma PricePartDecides(c: Collation, a: PriceTables, b: PriceTables, plan: Id)
    requires Orders(c)
    ensures PricePart(c, a, plan) == PricePart(c, b, plan) ==> multiset(PlanPrices(a, plan)) == multiset(PlanPrices(b, plan))
    ensures OneRowPerKey(PlanPrices(a, plan)) ==>
              (PricePart(c, a, plan) == PricePart(c, b, plan) <==> multiset(PlanPrices(a, plan)) == multiset(PlanPrices(b, plan)))
  {
    SortSorts(c.prices, PlanPrices(a, plan));
    SortSorts(c.prices, PlanPrices(b, plan));
    if OneRowPerKey(PlanPrices(a, plan)) && multiset(PlanPrices(a, plan)) == multiset(PlanPrices(b, plan)) {
      SortCanonical(c.prices, PlanPrices(a, plan), PlanPrices(b, plan));
    }
  }

  /** Two documents that differ at most in the order of their JSON fields. */
  ghost predicate SameDoc(a: ContractDoc, b: ContractDoc) {
    a.(rows := JNull) == b.(rows := JNull) && SameJson(a.rows, b.rows)
  }

  ghost predicate OneDocPerKey(docs: seq<ContractDoc>) {
    forall x, y :: x in docs && y in docs && DocKeyOf(ToDocLine()(x)) == DocKeyOf(ToDocLine()(y)) ==> x == y
  }

  /** Receiving the same documents again, in any order and with fields in any order, keeps the fingerprint. */
  lemma ResendKeepsFingerprint(c: Collation, sent: seq<ContractDoc>, again: seq<ContractDoc>, reordered: seq<ContractDoc>,
                               p: Plan, t: PriceTables)
    requires Orders(c) && OneDocPerKey(sent)
    requires forall d :: d in sent ==> WellFormed(d.rows)
    requires forall d :: d in reordered ==> WellFormed(d.rows)
    requires |reordered| == |sent| && forall i :: 0 <= i < |sent| ==> SameDoc(sent[i], reordered[i])
    requires multiset(again) == multiset(reordered)
    ensures TariffFingerprint(c, again, p, t) == TariffFingerprint(c, sent, p, t)
  {
    if p.operatorContract.Some? && p.operatorContract.value != "" {
      var keep := BelongsTo(p.operatorContract.value, p.partner);
      ReorderedLines(keep, sent, reordered);
      FilterMultiset(keep, again, reordered);
      MapMultiset(ToDocLine(), Filter(keep, again), Filter(keep, reordered));
      LinesDoNotTie(c, Filter(keep, sent));
      SortCanonical(c.docs, Map(ToDocLine(), Filter(keep, sent)), Map(ToDocLine(), Filter(keep, again)));
    }
  }

  lemma LinesDoNotTie(c: Collation, docs: seq<ContractDoc>)
    requires Orders(c) && OneDocPerKey(docs)
    ensures forall x, y :: x in Map(ToDocLine(), docs) && y in Map(ToDocLine(), docs) && c.docs(x, y) && c.docs(y, x) ==> x == y
  {
    var lines := Map(ToDocLine(), docs);
    forall x, y | x in lines && y in lines && c.docs(x, y) && c.docs(y, x) ensures x == y {
      var i, j :| 0 <= i < |lines| && lines[i] == x && 0 <= j < |lines| && lines[j] == y;
      assert docs[i] in docs && docs[j] in docs;
    }
  }

  lemma {:induction false} ReorderedLines(keep: ContractDoc -> bool, a: seq<ContractDoc>, b: seq<ContractDoc>)
    requires |a| == |b| && forall i :: 0 <= i < |a| ==> SameDoc(a[i], b[i]) && keep(a[i]) == keep(b[i])
    requires forall d :: d in a ==> WellFormed(d.rows)
    requires forall d :: d in b ==> WellFormed(d.rows)
    ensures Map(ToDocLine(), Filter(keep, a)) == Map(ToDocLine(), Filter(keep, b))
  {
    if a != [] {
      assert a[0] in a && b[0] in b;
      CanonicalDecides(a[0].rows, b[0].rows);
      assert ToDocLine()(a[0]) == ToDocLine()(b[0]);
      ReorderedLines(keep, a[1..], b[1..]);
      MapConcat(ToDocLine(), [a[0]], Filter(keep, a[1..]));
      MapConcat(ToDocLine(), [b[0]], Filter(keep, b[1..]));
    }
  }

  // ── The fingerprint tells contents apart ─────────────────────────────────

  /** The document is of the contract the plan embodies and not another partner's. */
  predicate Concerns(d: ContractDoc, p: Plan) {
    && p.operatorContract == Some(d.contractNumber) && d.contractNumber != ""
    && (p.partner.None? || d.partner.None? || d.partner == p.partner)
  }

  /** Two documents alike in all that is agreed in them: everything but whose they are, the rows up to the order of fields. */
  ghost predicate ReadAlike(d: ContractDoc, e: ContractDoc) {
    && d.contractNumber == e.contractNumber && d.amendment == e.amendment && d.service == e.service
    && d.validFrom == e.validFrom && d.validTo == e.validTo && d.vatRate == e.vatRate
    && SameJson(d.rows, e.rows)
  }

  /** Two plans alike in everything but their prices that decides what is charged and to whom. */
  predicate SameTerms(p: Plan, q: Plan) {
    && p.mealPlan == q.mealPlan && p.occupancyPricing == q.occupancyPricing
    && p.modifierType == q.modifierType && p.modifierValue == q.modifierValue
    && p.account == q.account && p.customer == q.customer && p.guestKind == q.guestKind && p.vatRate == q.vatRate
  }

  /** Every document that concerns `p` has its like among those that concern `q`. */
  ghost predicate Answered(docsA: seq<ContractDoc>, p: Plan, docsB: seq<ContractDoc>, q: Plan) {
    forall d :: d in docsA && Concerns(d, p) ==> exists e :: e in docsB && Concerns(e, q) && ReadAlike(d, e)
  }

  ghost predicate WellFormedDocs(docs: seq<ContractDoc>) {
    forall d :: d in docs ==> WellFormed(d.rows)
  }

  predicate SameSheet(d: ContractDoc, e: ContractDoc) {
    d.service == e.service && Or(d.amendment, "") == Or(e.amendment, "") && d.validFrom == e.validFrom
  }

  /** No two documents that concern the plan share service, amendment and beginning. */
  ghost predicate DistinctDocs(docs: seq<ContractDoc>, p: Plan) {
    forall i, j :: 0 <= i < j < |docs| && Concerns(docs[i], p) && Concerns(docs[j], p) ==> !SameSheet(docs[i], docs[j])
  }

  lemma ConcernedDocs(docs: seq<ContractDoc>, p: Plan, d: ContractDoc)
    ensures d in DocsOfContract(docs, p.operatorContract, p.partner) <==> d in docs && Concerns(d, p)
  {
  }

  lemma AlikeLines(d: ContractDoc, e: ContractDoc)
    requires WellFormed(d.rows) && WellFormed(e.rows)
    ensures ToDocLine()(d) == ToDocLine()(e) <==> ReadAlike(d, e)
  {
    CanonicalDecides(d.rows, e.rows);
  }

  lemma LineOf(docs: seq<ContractDoc>, p: Plan, x: DocLine)
    ensures x in Map(ToDocLine(), DocsOfContract(docs, p.operatorContract, p.partner))
            <==> exists d :: d in docs && Concerns(d, p) && ToDocLine()(d) == x
  {
    var mine := DocsOfContract(docs, p.operatorContract, p.partner);
    var lines := Map(ToDocLine(), mine);
    if x in lines {
      var i :| 0 <= i < |lines| && lines[i] == x;
      ConcernedDocs(docs, p, mine[i]);
    }
    if d :| d in docs && Concerns(d, p) && ToDocLine()(d) == x {
      ConcernedDocs(docs, p, d);
      var i :| 0 <= i < |mine| && mine[i] == d;
      assert lines[i] == x;
    }
  }

  /** Every line of the one list is a line of the other exactly when every document has its like. */
  lemma LinesAnswered(docsA: seq<ContractDoc>, p: Plan, docsB: seq<ContractDoc>, q: Plan)
    requires WellFormedDocs(docsA) && WellFormedDocs(docsB)
    ensures var a, b := DocsOfContract(docsA, p.operatorContract, p.partner), DocsOfContract(docsB, q.operatorContract, q.partner);
            (forall x :: x in Map(ToDocLine(), a) ==> x in Map(ToDocLine(), b)) <==> Answered(docsA, p, docsB, q)
  {
    var a, b := DocsOfContract(docsA, p.operatorContract, p.partner), DocsOfContract(docsB, q.operatorContract, q.partner);
    if forall x :: x in Map(ToDocLine(), a) ==> x in Map(ToDocLine(), b) {
      forall d | d in docsA && Concerns(d, p) ensures exists e :: e in docsB && Concerns(e, q) && ReadAlike(d, e) {
        LineOf(docsA, p, ToDocLine()(d));
        LineOf(docsB, q, ToDocLine()(d));
        var e :| e in docsB && Concerns(e, q) && ToDocLine()(e) == ToDocLine()(d);
        AlikeLines(d, e);
      }
    }
    if Answered(docsA, p, docsB, q) {
      forall x | x in Map(ToDocLine(), a) ensures x in Map(ToDocLine(), b) {
        LineOf(docsA, p, x);
        LineOf(docsB, q, x);
        var d :| d in docsA && Concerns(d, p) && ToDocLine()(d) == x;
        var e :| e in docsB && Concerns(e, q) && ReadAlike(d, e);
        AlikeLines(d, e);
      }
    }
  }

  lemma SameSorted(c: Collation, a: seq<DocLine>, b: seq<DocLine>)
    requires Orders(c) && Sort(c.docs, a) == Sort(c.docs, b)
    ensures forall x :: x in a <==> x in b
  {
    SortMembers(c.docs, a);
    SortMembers(c.docs, b);
  }

  /**
   * One fingerprint means one content: the same terms field by field, every document that concerns the one
   * plan answered by a like one of the other and back, and the same price rows.
   */
  lemma FingerprintTellsApart(c: Collation, docsA: seq<ContractDoc>, docsB: seq<ContractDoc>, p: Plan, q: Plan, a: PriceTables, b: PriceTables)
    requires Orders(c) && WellFormedDocs(docsA) && WellFormedDocs(docsB)
    requires TariffFingerprint(c, docsA, p, a) == TariffFingerprint(c, docsB, q, b)
    ensures SameTerms(p, q)
    ensures Answered(docsA, p, docsB, q) && Answered(docsB, q, docsA, p)
    ensures multiset(PlanPrices(a, p.id)) == multiset(PlanPrices(b, q.id))
  {
    var da, db := DocsOfContract(docsA, p.operatorContract, p.partner), DocsOfContract(docsB, q.operatorContract, q.partner);
    SameSorted(c, Map(ToDocLine(), da), Map(ToDocLine(), db));
    LinesAnswered(docsA, p, docsB, q);
    LinesAnswered(docsB, q, docsA, p);
    SortSorts(c.prices, PlanPrices(a, p.id));
    SortSorts(c.prices, PlanPrices(b, q.id));
  }

  lemma {:induction false} FilteredKeysDiffer(keep: ContractDoc -> bool, docs: seq<ContractDoc>)
    requires forall i, j :: 0 <= i < j < |docs| && keep(docs[i]) && keep(docs[j]) ==>
                              DocKeyOf(ToDocLine()(docs[i])) != DocKeyOf(ToDocLine()(docs[j]))
    ensures NoRepeats(Map(ToDocLine(), Filter(keep, docs)))
    ensures forall i, j :: 0 <= i < j < |Filter(keep, docs)| ==>
              DocKeyOf(ToDocLine()(Filter(keep, docs)[i])) != DocKeyOf(ToDocLine()(Filter(keep, docs)[j]))
  {
    if docs != [] {
      FilteredKeysDiffer(keep, docs[1..]);
      var rest := Filter(keep, docs[1..]);
      forall j | 0 <= j < |rest| && keep(docs[0]) ensures DocKeyOf(ToDocLine()(docs[0])) != DocKeyOf(ToDocLine()(rest[j])) {
        assert rest[j] in docs[1..];
        var k :| 0 <= k < |docs[1..]| && docs[1..][k] == rest[j];
        assert docs[k+1] == rest[j];
      }
    }
  }

  lemma DistinctLines(docs: seq<ContractDoc>, p: Plan)
    requires DistinctDocs(docs, p)
    ensures var lines := Map(ToDocLine(), DocsOfContract(docs, p.operatorContract, p.partner));
            NoRepeats(lines) && forall x, y :: x in lines && y in lines && DocKeyOf(x) == DocKeyOf(y) ==> x == y
  {
    if p.operatorContract.Some? && p.operatorContract.value != "" {
      FilteredKeysDiffer(BelongsTo(p.operatorContract.value, p.partner), docs);
      var lines := Map(ToDocLine(), DocsOfContract(docs, p.operatorContract, p.partner));
      forall x, y | x in lines && y in lines && DocKeyOf(x) == DocKeyOf(y) ensures x == y {
        var i, j :| 0 <= i < |lines| && lines[i] == x && 0 <= j < |lines| && lines[j] == y;
      }
    }
  }

  lemma SameLinesSort(c: Collation, a: seq<DocLine>, b: seq<DocLine>)
    requires Orders(c) && NoRepeats(a) && NoRepeats(b) && forall x :: x in a <==> x in b
    requires forall x, y :: x in a && y in a && DocKeyOf(x) == DocKeyOf(y) ==> x == y
    ensures Sort(c.docs, a) == Sort(c.docs, b)
  {
    FewerMembers(a, b);
    FewerMembers(b, a);
    SameMembersPermute(a, b);
    SortCanonical(c.docs, a, b);
  }

  /** And exactly that, when neither the documents nor the price rows repeat a key. */
  lemma SameFingerprintIff(c: Collation, docsA: seq<ContractDoc>, docsB: seq<ContractDoc>, p: Plan, q: Plan, a: PriceTables, b: PriceTables)
    requires Orders(c) && WellFormedDocs(docsA) && WellFormedDocs(docsB)
    requires DistinctDocs(docsA, p) && DistinctDocs(docsB, q) && OneRowPerKey(PlanPrices(a, p.id))
    ensures TariffFingerprint(c, docsA, p, a) == TariffFingerprint(c, docsB, q, b) <==>
              && SameTerms(p, q)
              && Answered(docsA, p, docsB, q) && Answered(docsB, q, docsA, p)
              && multiset(PlanPrices(a, p.id)) == multiset(PlanPrices(b, q.id))
  {
    if TariffFingerprint(c, docsA, p, a) == TariffFingerprint(c, docsB, q, b) {
      FingerprintTellsApart(c, docsA, docsB, p, q, a, b);
    } else if Answered(docsA, p, docsB, q) && Answered(docsB, q, docsA, p) && SameTerms(p, q) {
      var da, db := DocsOfContract(docsA, p.operatorContract, p.partner), DocsOfContract(docsB, q.operatorContract, q.partner);
      LinesAnswered(docsA, p, docsB, q);
      LinesAnswered(docsB, q, docsA, p);
      DistinctLines(docsA, p);
      DistinctLines(docsB, q);
      SameLinesSort(c, Map(ToDocLine(), da), Map(ToDocLine(), db));
      if multiset(PlanPrices(a, p.id)) == multiset(PlanPrices(b, q.id)) {
        SortCanonical(c.prices, PlanPrices(a, p.id), PlanPrices(b, q.id));
      }
    }
  }

  // ── The price snapshot that decides whether to notify the partner ────────

  datatype SnapshotLine =
    | DaySnapshot(room: Id, date: Day, occupancy: nat, price: Cents, currency: string)
    | SeasonSnapshot(room: Id, dateFrom: Day, dateTo: Day, occupancy: nat, price: Cents, currency: string)
    | StandardSnapshot(room: Id, occupancy: nat, price: Cents, currency: string)

  function DaySnap(): DayRate -> SnapshotLine {
    (r: DayRate) => DaySnapshot(r.room, r.date, r.occupancy, r.price, r.currency)
  }

  function SeasonSnap(): Season -> SnapshotLine {
    (r: Season) => SeasonSnapshot(r.room, r.dateFrom, r.dateTo, r.occupancy, r.price, r.currency)
  }

  function StandardSnap(): StandardRate -> SnapshotLine {
    (r: StandardRate) => StandardSnapshot(r.room, r.occupancy, r.price, r.currency)
  }

  function SnapshotLines(t: PriceTables, plan: Id): seq<SnapshotLine> {
    Map(DaySnap(), Filter(DayOfPlan(plan), t.days))
    + Map(SeasonSnap(), Filter(SeasonOfPlan(plan), t.seasons))
    + Map(StandardSnap(), Filter(StandardOfPlan(plan), t.standards))
  }

  /** `le` is the plain order of strings, under which different lines never tie. */
  function PriceSnapshot(le: (SnapshotLine, SnapshotLine) -> bool, t: PriceTables, plan: Id): seq<SnapshotLine> {
    Sort(le, SnapshotLines(t, plan))
  }

  ghost predicate StringOrder(le: (SnapshotLine, SnapshotLine) -> bool) {
    TotalPreorder(le) && forall x, y :: le(x, y) && le(y, x) ==> x == y
  }

  function SnapToPrice(): SnapshotLine -> PriceLine {
    (s: SnapshotLine) =>
      match s
      case DaySnapshot(room, date, occupancy, price, currency) =>
        PriceLine(DAY, room, Some(occupancy), Some(date), Some(date), price, currency)
      case SeasonSnapshot(room, dateFrom, dateTo, occupancy, price, currency) =>
        PriceLine(SEASON, room, Guests(occupancy), Some(dateFrom), Some(dateTo), price, currency)
      case StandardSnapshot(room, occupancy, price, currency) =>
        PriceLine(STANDARD, room, Guests(occupancy), None, None, price, currency)
  }

  function PriceToSnap(): PriceLine -> SnapshotLine {
    (p: PriceLine) =>
      var occupancy := if p.occupancy.Some? then p.occupancy.value else 0;
      match (p.kind, p.dateFrom, p.dateTo)
      case (DAY, Some(date), _) => DaySnapshot(p.room, date, occupancy, p.price, p.currency)
      case (SEASON, Some(from), Some(to)) => SeasonSnapshot(p.room, from, to, occupancy, p.price, p.currency)
      case _ => StandardSnapshot(p.room, occupancy, p.price, p.currency)
  }

  /** The two ways of listing a plan's prices carry the same information. */
  lemma SnapshotIsPrices(t: PriceTables, plan: Id)
    ensures Map(SnapToPrice(), SnapshotLines(t, plan)) == PlanPrices(t, plan)
    ensures Map(PriceToSnap(), PlanPrices(t, plan)) == SnapshotLines(t, plan)
  {
    var d, s, b := Filter(DayOfPlan(plan), t.days), Filter(SeasonOfPlan(plan), t.seasons), Filter(StandardOfPlan(plan), t.standards);
    MapConcat(SnapToPrice(), Map(DaySnap(), d) + Map(SeasonSnap(), s), Map(StandardSnap(), b));
    MapConcat(SnapToPrice(), Map(DaySnap(), d), Map(SeasonSnap(), s));
    MapConcat(PriceToSnap(), Map(DayLine(), d) + Map(SeasonLine(), s), Map(StandardLine(), b));
    MapConcat(PriceToSnap(), Map(DayLine(), d), Map(SeasonLine(), s));
    assert Map(SnapToPrice(), Map(DaySnap(), d)) == Map(DayLine(), d);
    assert Map(SnapToPrice(), Map(SeasonSnap(), s)) == Map(SeasonLine(), s);
    assert Map(SnapToPrice(), Map(StandardSnap(), b)) == Map(StandardLine(), b);
    assert Map(PriceToSnap(), Map(DayLine(), d)) == Map(DaySnap(), d);
    assert Map(PriceToSnap(), Map(SeasonLine(), s)) == Map(SeasonSnap(), s);
    assert Map(PriceToSnap(), Map(StandardLine(), b)) == Map(StandardSnap(), b);
  }

  lemma SnapshotDecides(le: (SnapshotLine, SnapshotLine) -> bool, a: PriceTables, b: PriceTables, plan: Id)
    requires StringOrder(le)
    ensures PriceSnapshot(le, a, plan) == PriceSnapshot(le, b, plan)
            <==> multiset(PlanPrices(a, plan)) == multiset(PlanPrices(b, plan))
  {
    SnapshotIsPrices(a, plan);
    SnapshotIsPrices(b, plan);
    SortSorts(le, SnapshotLines(a, plan));
    SortSorts(le, SnapshotLines(b, plan));
    if PriceSnapshot(le, a, plan) == PriceSnapshot(le, b, plan) {
      MapMultiset(SnapToPrice(), SnapshotLines(a, plan), SnapshotLines(b, plan));
    }
    if multiset(PlanPrices(a, plan)) == multiset(PlanPrices(b, plan)) {
      MapMultiset(PriceToSnap(), PlanPrices(a, plan), PlanPrices(b, plan));
      SortCanonical(le, SnapshotLines(a, plan), SnapshotLines(b, plan));
    }
  }

  /** The snapshot moves exactly when the price part of the fingerprint moves. */
  lemma NoticeMatchesFingerprint(c: Collation, le: (SnapshotLine, SnapshotLine) -> bool, a: PriceTables, b: PriceTables, plan: Id)
    requires Orders(c) && StringOrder(le) && OneRowPerKey(PlanPrices(a, plan))
    ensures PriceSnapshot(le, a, plan) != PriceSnapshot(le, b, plan) <==> PricePart(c, a, plan) != PricePart(c, b, plan)
  {
    PricePartDecides(c, a, b, plan);
    SnapshotDecides(le, a, b, plan);
  }
}
