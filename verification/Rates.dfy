/**
 * The price editor: day prices, standard prices and seasons are written, and
 * the partner is told exactly when the prices its confirmation covers move.
 */
module Rates {
  import opened Options
  import opened Sequences
  import opened KeyedRows
  import opened Tariffs
  import opened Fingerprint

  const MAX_FILL_DAYS := 366

  datatype DayKey = DayKey(plan: Id, room: Id, date: Day, occupancy: nat)
  datatype StandardKey = StandardKey(plan: Id, room: Id, occupancy: nat)
  datatype SeasonKey = SeasonKey(plan: Id, room: Id, dateFrom: Day, dateTo: Day, occupancy: nat)

  function DayKeyOf(): DayRate -> DayKey {
    (r: DayRate) => DayKey(r.plan, r.room, r.date, r.occupancy)
  }

  function StandardKeyOf(): StandardRate -> StandardKey {
    (r: StandardRate) => StandardKey(r.plan, r.room, r.occupancy)
  }

  function SeasonKeyOf(): Season -> SeasonKey {
    (r: Season) => SeasonKey(r.plan, r.room, r.dateFrom, r.dateTo, r.occupancy)
  }

  // ── What is sent ─────────────────────────────────────────────────────────

  datatype RateItem = RateItem(plan: Id, room: Id, date: Day, occupancy: Option<nat>, price: Cents, currency: Option<string>)
  datatype Fill = Fill(plan: Id, room: Id, from: Day, to: Day, occupancy: Option<nat>, price: Cents, currency: Option<string>)
  datatype PriceItem = PriceItem(room: Id, price: Cents, occupancy: Option<nat>)
  datatype SeasonInput = SeasonInput(dateFrom: Day, dateTo: Day, items: seq<PriceItem>, sortOrder: Option<int>)

  datatype Outcome = Written(count: nat) | Saved | BadRequest | NotFound

  function ItemRow(): RateItem -> DayRate {
    (it: RateItem) => DayRate(it.plan, it.room, it.date, Or(it.occupancy, 2), it.price, Or(it.currency, "RUB"))
  }

  function FillRow(f: Fill, i: int): DayRate {
    DayRate(f.plan, f.room, f.from + i, Or(f.occupancy, 2), f.price, Or(f.currency, "RUB"))
  }

  function FillRows(f: Fill, n: nat): seq<DayRate> {
    seq(n, i => FillRow(f, i))
  }

  function StandardRow(plan: Id, currency: Option<string>, it: PriceItem): StandardRate {
    StandardRate(plan, it.room, Or(it.occupancy, 0), it.price, Or(currency, "RUB"))
  }

  /** A positive price is stored; any other takes the row away. */
  function SetOne(standards: seq<StandardRate>, row: StandardRate): seq<StandardRate> {
    if row.price > 0 then Put(StandardKeyOf(), standards, row)
    else Filter(OtherKey(StandardKeyOf(), StandardKeyOf()(row)), standards)
  }

  function SetAll(standards: seq<StandardRate>, rows: seq<StandardRate>): seq<StandardRate> {
    if rows == [] then standards else SetOne(SetAll(standards, rows[..|rows|-1]), rows[|rows|-1])
  }

  function StandardRows(plan: Id, items: seq<PriceItem>, currency: Option<string>): seq<StandardRate> {
    seq(|items|, i requires 0 <= i < |items| => StandardRow(plan, currency, items[i]))
  }

  function Charged(): PriceItem -> bool {
    (it: PriceItem) => it.price > 0
  }

  function SeasonRow(plan: Id, currency: Option<string>, s: SeasonInput, index: nat): PriceItem -> Season {
    (it: PriceItem) => Season(plan, it.room, s.dateFrom, s.dateTo, Or(it.occupancy, 0), it.price, Or(currency, "RUB"),
                              Or(s.sortOrder, index))
  }

  /** One row per charged category of each season, in the order sent. */
  function SeasonRows(plan: Id, currency: Option<string>, seasons: seq<SeasonInput>): seq<Season> {
    if seasons == [] then []
    else
      var n := |seasons| - 1;
      SeasonRows(plan, currency, seasons[..n]) + Map(SeasonRow(plan, currency, seasons[n], n), Filter(Charged(), seasons[n].items))
  }

  // ── The edits ────────────────────────────────────────────────────────────

  datatype Edit =
    | BulkUpsert(items: seq<RateItem>)
    | FillRange(fill: Fill)
    | SetStandard(plan: Id, prices: seq<PriceItem>, currency: Option<string>)
    | ReplaceSeasons(plan: Id, seasons: seq<SeasonInput>, currency: Option<string>)
    | RemoveRate(key: DayKey)

  function Refusal(t: PriceTables, e: Edit): Option<Outcome> {
    match e
    case FillRange(f) => if f.to < f.from || f.to - f.from + 1 > MAX_FILL_DAYS then Some(BadRequest) else None
    case ReplaceSeasons(_, seasons, _) => if exists s :: s in seasons && s.dateTo < s.dateFrom then Some(BadRequest) else None
    case RemoveRate(key) => if Find(DayKeyOf(), t.days, key).None? then Some(NotFound) else None
    case _ => None
  }

  /** The tables after an edit that is not refused. */
  function Edited(t: PriceTables, e: Edit): PriceTables
    requires Refusal(t, e).None?
  {
    match e
    case BulkUpsert(items) => t.(days := PutAll(DayKeyOf(), t.days, Map(ItemRow(), items)))
    case FillRange(f) => t.(days := PutAll(DayKeyOf(), t.days, FillRows(f, f.to - f.from + 1)))
    case SetStandard(plan, prices, currency) => t.(standards := SetAll(t.standards, StandardRows(plan, prices, currency)))
    case ReplaceSeasons(plan, seasons, currency) =>
      t.(seasons := Filter(SeasonOfOther(plan), t.seasons) + SeasonRows(plan, currency, seasons))
    case RemoveRate(key) => t.(days := Filter(OtherKey(DayKeyOf(), key), t.days))
  }

  /** The plans an edit names, each once. */
  function Touched(e: Edit): seq<Id> {
    match e
    case BulkUpsert(items) => Distinct(Map(PlanOf(), items))
    case FillRange(f) => [f.plan]
    case SetStandard(plan, _, _) => [plan]
    case ReplaceSeasons(plan, _, _) => [plan]
    case RemoveRate(key) => [key.plan]
  }

  function PlanOf(): RateItem -> Id {
    (it: RateItem) => it.plan
  }

  /** `[...new Set(ids)]`. */
  function Distinct(ids: seq<Id>): (r: seq<Id>)
    ensures forall x :: x in r <==> x in ids
    ensures forall i, j :: 0 <= i < j < |r| ==> r[i] != r[j]
  {
    if ids == [] then []
    else
      var r := Distinct(ids[..|ids|-1]);
      if ids[|ids|-1] in r then r else r + [ids[|ids|-1]]
  }

  function Moved(le: (SnapshotLine, SnapshotLine) -> bool, a: PriceTables, b: PriceTables): Id -> bool {
    (plan: Id) => PriceSnapshot(le, a, plan) != PriceSnapshot(le, b, plan)
  }

  /** The plans whose partner is told about an edit. */
  function Notices(le: (SnapshotLine, SnapshotLine) -> bool, t: PriceTables, e: Edit): seq<Id>
    requires Refusal(t, e).None?
  {
    if e.RemoveRate? then [e.key.plan] else Filter(Moved(le, t, Edited(t, e)), Touched(e))
  }

  // ── What each edit leaves ────────────────────────────────────────────────

  /** The keys the schema keeps unique. */
  ghost predicate SchemaKeys(t: PriceTables) {
    UniqueKeys(DayKeyOf(), t.days) && UniqueKeys(StandardKeyOf(), t.standards)
  }

  /** The item is for the key; no number of guests means two. */
  predicate Names(it: RateItem, k: DayKey) {
    it.plan == k.plan && it.room == k.room && it.date == k.date && (if it.occupancy.Some? then it.occupancy.value else 2) == k.occupancy
  }

  /** A day holds the last price sent for it, in roubles unless said otherwise, or what it held. */
  lemma BulkUpsertMeaning(t: PriceTables, items: seq<RateItem>, k: DayKey)
    ensures var after := Edited(t, BulkUpsert(items));
            && Find(DayKeyOf(), after.days, k) == OrElse(FindLast(DayKeyOf(), Map(ItemRow(), items), k), Find(DayKeyOf(), t.days, k))
            && (forall i :: 0 <= i < |items| && Names(items[i], k) && (forall j :: i < j < |items| ==> !Names(items[j], k)) ==>
                  Find(DayKeyOf(), after.days, k)
                  == Some(DayRate(k.plan, k.room, k.date, k.occupancy, items[i].price,
                                  if items[i].currency.Some? then items[i].currency.value else "RUB")))
            && ((forall i :: 0 <= i < |items| ==> !Names(items[i], k)) ==> Find(DayKeyOf(), after.days, k) == Find(DayKeyOf(), t.days, k))
            && after.seasons == t.seasons && after.standards == t.standards
  {
    var rows := Map(ItemRow(), items);
    PutAllMeaning(DayKeyOf(), t.days, rows, k);
    assert forall i :: 0 <= i < |items| ==> (Names(items[i], k) <==> DayKeyOf()(rows[i]) == k);
    forall i | 0 <= i < |items| && Names(items[i], k) && (forall j :: i < j < |items| ==> !Names(items[j], k))
      ensures FindLast(DayKeyOf(), rows, k) == Some(rows[i])
    {
      FindLastIs(DayKeyOf(), rows, i);
    }
    if forall i :: 0 <= i < |items| ==> !Names(items[i], k) {
      FindLastMeaning(DayKeyOf(), rows, k);
    }
  }

  /** Filling a range prices exactly the days from its first to its last, for two guests unless said otherwise, and no other key. */
  lemma FillRangeMeaning(t: PriceTables, f: Fill, k: DayKey)
    requires f.from <= f.to < f.from + MAX_FILL_DAYS
    ensures var after := Edited(t, FillRange(f));
            && Find(DayKeyOf(), after.days, k) ==
               (if k.plan == f.plan && k.room == f.room && k.occupancy == Or(f.occupancy, 2) && f.from <= k.date <= f.to
                then Some(DayRate(f.plan, f.room, k.date, k.occupancy, f.price, if f.currency.Some? then f.currency.value else "RUB"))
                else Find(DayKeyOf(), t.days, k))
            && after.seasons == t.seasons && after.standards == t.standards
  {
    PutAllMeaning(DayKeyOf(), t.days, FillRows(f, f.to - f.from + 1), k);
    FilledDay(f, f.to - f.from + 1, k);
  }

  /** What is refused: a range that runs backwards or is longer than 366 days, a season that ends before it starts, a day price that is not there. */
  lemma RefusedIff(t: PriceTables, e: Edit)
    ensures Refusal(t, e).Some? <==>
              match e
              case FillRange(f) => f.to < f.from || f.to - f.from >= 366
              case ReplaceSeasons(_, seasons, _) => exists i :: 0 <= i < |seasons| && seasons[i].dateTo < seasons[i].dateFrom
              case RemoveRate(key) =>
                forall r :: r in t.days ==> !(r.plan == key.plan && r.room == key.room && r.date == key.date && r.occupancy == key.occupancy)
              case _ => false
  {
    match e
    case RemoveRate(key) => FindMeaning(DayKeyOf(), t.days, key);
    case _ =>
  }

  /** The item is for the category and party; no number of guests means any. */
  predicate Prices(it: PriceItem, room: Id, occupancy: nat) {
    it.room == room && (if it.occupancy.Some? then it.occupancy.value else 0) == occupancy
  }

  /** The category and party of an item keep the last standard price sent for them, or none when that is not positive. */
  lemma SetStandardMeaning(t: PriceTables, plan: Id, prices: seq<PriceItem>, currency: Option<string>, i: nat, occupancy: nat)
    requires i < |prices| && Prices(prices[i], prices[i].room, occupancy)
    requires forall j :: i < j < |prices| ==> !Prices(prices[j], prices[i].room, occupancy)
    ensures Find(StandardKeyOf(), Edited(t, SetStandard(plan, prices, currency)).standards, StandardKey(plan, prices[i].room, occupancy))
            == if prices[i].price > 0
               then Some(StandardRate(plan, prices[i].room, occupancy, prices[i].price, if currency.Some? then currency.value else "RUB"))
               else None
  {
    var rows := StandardRows(plan, prices, currency);
    SetAllMeaning(t.standards, rows, StandardKey(plan, prices[i].room, occupancy));
    FindLastIs(StandardKeyOf(), rows, i);
  }

  /** What no item names is left as it was, and so are the other tables. */
  lemma SetStandardLeaves(t: PriceTables, plan: Id, prices: seq<PriceItem>, currency: Option<string>, k: StandardKey)
    requires k.plan != plan || forall i :: 0 <= i < |prices| ==> !Prices(prices[i], k.room, k.occupancy)
    ensures var after := Edited(t, SetStandard(plan, prices, currency));
            && Find(StandardKeyOf(), after.standards, k) == Find(StandardKeyOf(), t.standards, k)
            && after.days == t.days && after.seasons == t.seasons
  {
    var rows := StandardRows(plan, prices, currency);
    SetAllMeaning(t.standards, rows, k);
    FindLastMeaning(StandardKeyOf(), rows, k);
  }

  lemma FilledDay(f: Fill, n: nat, k: DayKey)
    ensures FindLast(DayKeyOf(), FillRows(f, n), k) ==
            if k.plan == f.plan && k.room == f.room && k.occupancy == Or(f.occupancy, 2) && f.from <= k.date < f.from + n
            then Some(FillRow(f, k.date - f.from)) else None
  {
    var rows, i := FillRows(f, n), k.date - f.from;
    FindLastMeaning(DayKeyOf(), rows, k);
    if 0 <= i < n {
      assert rows[i] in rows && rows[i] == FillRow(f, i);
    }
    forall r | r in rows && DayKeyOf()(r) == k ensures 0 <= i < n && r == FillRow(f, i) {
      var j :| 0 <= j < n && rows[j] == r;
    }
  }

  /** A category keeps the last standard price sent for it; a price that is not positive leaves it without one. */
  lemma {:induction false} SetAllMeaning(standards: seq<StandardRate>, rows: seq<StandardRate>, k: StandardKey)
    ensures Find(StandardKeyOf(), SetAll(standards, rows), k) ==
            match FindLast(StandardKeyOf(), rows, k)
            case None => Find(StandardKeyOf(), standards, k)
            case Some(r) => if r.price > 0 then Some(r) else None
    ensures UniqueKeys(StandardKeyOf(), standards) ==> UniqueKeys(StandardKeyOf(), SetAll(standards, rows))
  {
    if rows != [] {
      var before, row := SetAll(standards, rows[..|rows|-1]), rows[|rows|-1];
      SetAllMeaning(standards, rows[..|rows|-1], k);
      PutMeaning(StandardKeyOf(), before, row, k);
      WithoutMeaning(StandardKeyOf(), before, StandardKeyOf()(row), k);
      if UniqueKeys(StandardKeyOf(), before) {
        PutUnique(StandardKeyOf(), before, row);
        FilterUnique(StandardKeyOf(), OtherKey(StandardKeyOf(), StandardKeyOf()(row)), before);
      }
    }
  }

  /** A season row as sent: for any number of guests, in roubles and in the order of sending unless said otherwise. */
  function SentSeason(plan: Id, currency: Option<string>, s: SeasonInput, index: nat, it: PriceItem): Season {
    Season(plan, it.room, s.dateFrom, s.dateTo, if it.occupancy.Some? then it.occupancy.value else 0, it.price,
           if currency.Some? then currency.value else "RUB", if s.sortOrder.Some? then s.sortOrder.value else index)
  }

  lemma {:induction false} SeasonRowsMeaning(plan: Id, currency: Option<string>, seasons: seq<SeasonInput>, r: Season)
    ensures r in SeasonRows(plan, currency, seasons)
            <==> exists i, it :: 0 <= i < |seasons| && it in seasons[i].items && it.price > 0
                                 && r == SentSeason(plan, currency, seasons[i], i, it)
  {
    if seasons != [] {
      var n := |seasons| - 1;
      SeasonRowsMeaning(plan, currency, seasons[..n], r);
      var mine := Map(SeasonRow(plan, currency, seasons[n], n), Filter(Charged(), seasons[n].items));
      if r in mine {
        var j :| 0 <= j < |mine| && mine[j] == r;
        var it := Filter(Charged(), seasons[n].items)[j];
        assert it in seasons[n].items && it.price > 0 && r == SentSeason(plan, currency, seasons[n], n, it);
      }
      forall i, it | 0 <= i < |seasons| && it in seasons[i].items && it.price > 0 && r == SentSeason(plan, currency, seasons[i], i, it)
        ensures r in SeasonRows(plan, currency, seasons)
      {
        if i == n {
          var kept := Filter(Charged(), seasons[n].items);
          var j :| 0 <= j < |kept| && kept[j] == it;
          assert mine[j] == r;
        } else {
          assert seasons[..n][i] == seasons[i];
        }
      }
      if r in SeasonRows(plan, currency, seasons[..n]) {
        var i, it :| 0 <= i < n && it in seasons[..n][i].items && it.price > 0 && r == SentSeason(plan, currency, seasons[..n][i], i, it);
        assert seasons[..n][i] == seasons[i];
      }
    }
  }

  lemma AllOfPlan(plan: Id, currency: Option<string>, seasons: seq<SeasonInput>)
    ensures forall r :: r in SeasonRows(plan, currency, seasons) ==> r.plan == plan
  {
    forall r | r in SeasonRows(plan, currency, seasons) ensures r.plan == plan {
      SeasonRowsMeaning(plan, currency, seasons, r);
    }
  }

  /** The plan is left with exactly the seasons sent; every other plan keeps its own. */
  lemma ReplaceSeasonsMeaning(t: PriceTables, plan: Id, seasons: seq<SeasonInput>, currency: Option<string>, other: Id)
    requires Refusal(t, ReplaceSeasons(plan, seasons, currency)).None?
    ensures var after := Edited(t, ReplaceSeasons(plan, seasons, currency));
            Filter(SeasonOfPlan(other), after.seasons) ==
            if other == plan then SeasonRows(plan, currency, seasons) else Filter(SeasonOfPlan(other), t.seasons)
  {
    var rows, rest := SeasonRows(plan, currency, seasons), Filter(SeasonOfOther(plan), t.seasons);
    AllOfPlan(plan, currency, seasons);
    FilterConcat(SeasonOfPlan(other), rest, rows);
    FilterAll(SeasonOfPlan(other), rows);
    if other == plan {
      FilterAll(SeasonOfPlan(other), rest);
    } else {
      FilterFilter(SeasonOfOther(plan), SeasonOfPlan(other), t.seasons);
    }
  }

  lemma EditKeepsSchema(t: PriceTables, e: Edit)
    requires SchemaKeys(t) && Refusal(t, e).None?
    ensures SchemaKeys(Edited(t, e))
  {
    match e
    case BulkUpsert(items) => PutAllMeaning(DayKeyOf(), t.days, Map(ItemRow(), items), DayKey(0, 0, 0, 0));
    case FillRange(f) => PutAllMeaning(DayKeyOf(), t.days, FillRows(f, f.to - f.from + 1), DayKey(0, 0, 0, 0));
    case SetStandard(plan, prices, currency) =>
      SetAllMeaning(t.standards, StandardRows(plan, prices, currency), StandardKey(0, 0, 0));
    case ReplaceSeasons(_, _, _) =>
    case RemoveRate(key) => FilterUnique(DayKeyOf(), OtherKey(DayKeyOf(), key), t.days);
  }

  // ── The notice and the fingerprint ───────────────────────────────────────

  lemma {:induction false} SetAllOutside(standards: seq<StandardRate>, rows: seq<StandardRate>, other: Id)
    requires forall r :: r in rows ==> r.plan != other
    ensures Filter(StandardOfPlan(other), SetAll(standards, rows)) == Filter(StandardOfPlan(other), standards)
  {
    if rows != [] {
      var before, row := SetAll(standards, rows[..|rows|-1]), rows[|rows|-1];
      SetAllOutside(standards, rows[..|rows|-1], other);
      PutOutside(StandardKeyOf(), StandardOfPlan(other), before, row);
      FilterFilter(OtherKey(StandardKeyOf(), StandardKeyOf()(row)), StandardOfPlan(other), before);
    }
  }

  /** A plan the edit does not name keeps all its prices. */
  lemma OtherPlansKeepPrices(t: PriceTables, e: Edit, other: Id)
    requires Refusal(t, e).None? && other !in Touched(e)
    ensures PlanPrices(Edited(t, e), other) == PlanPrices(t, other)
    ensures SnapshotLines(Edited(t, e), other) == SnapshotLines(t, other)
  {
    match e
    case BulkUpsert(items) =>
      forall x | x in Map(ItemRow(), items) ensures x.plan != other {
        var i :| 0 <= i < |items| && Map(ItemRow(), items)[i] == x;
        assert Map(PlanOf(), items)[i] in Map(PlanOf(), items);
      }
      PutAllOutside(DayKeyOf(), DayOfPlan(other), t.days, Map(ItemRow(), items));
    case FillRange(f) => PutAllOutside(DayKeyOf(), DayOfPlan(other), t.days, FillRows(f, f.to - f.from + 1));
    case SetStandard(plan, prices, currency) => SetAllOutside(t.standards, StandardRows(plan, prices, currency), other);
    case ReplaceSeasons(plan, seasons, currency) => ReplaceSeasonsMeaning(t, plan, seasons, currency, other);
    case RemoveRate(key) => FilterFilter(OtherKey(DayKeyOf(), key), DayOfPlan(other), t.days);
  }

  /** Taking a price away always moves the prices of its plan. */
  lemma RemovalMoves(t: PriceTables, key: DayKey)
    requires Find(DayKeyOf(), t.days, key).Some?
    ensures multiset(PlanPrices(Edited(t, RemoveRate(key)), key.plan)) != multiset(PlanPrices(t, key.plan))
  {
    FindMeaning(DayKeyOf(), t.days, key);
    var keep, mine := OtherKey(DayKeyOf(), key), DayOfPlan(key.plan);
    FilterSwap(mine, keep, t.days);
    FilterShrinks(keep, Filter(mine, t.days), Find(DayKeyOf(), t.days, key).value);
    var after := Edited(t, RemoveRate(key));
    assert |PlanPrices(after, key.plan)| < |PlanPrices(t, key.plan)|;
    assert |multiset(PlanPrices(after, key.plan))| != |multiset(PlanPrices(t, key.plan))|;
  }

  /** For every plan, named or not, a notice is requested exactly when the price part of its fingerprint moves. */
  lemma NoticeWhenPricesMove(c: Collation, le: (SnapshotLine, SnapshotLine) -> bool, t: PriceTables, e: Edit, plan: Id)
    requires Orders(c) && StringOrder(le)
    requires Refusal(t, e).None? && OneRowPerKey(PlanPrices(t, plan))
    ensures plan in Notices(le, t, e) <==> PricePart(c, Edited(t, e), plan) != PricePart(c, t, plan)
  {
    if plan !in Touched(e) {
      OtherPlansKeepPrices(t, e, plan);
    } else {
      NoticeMatchesFingerprint(c, le, t, Edited(t, e), plan);
      if e.RemoveRate? {
        RemovalMoves(t, e.key);
        SnapshotDecides(le, t, Edited(t, e), plan);
      }
    }
  }

  // ── Exactly when the notice can be relied on ─────────────────────────────

  function WithKey(k: PriceKey): PriceLine -> bool {
    (x: PriceLine) => PriceKeyOf(x) == k
  }

  function SeasonsPricedAs(plan: Id, line: PriceLine, yes: bool): Season -> bool {
    (r: Season) => (r.plan == plan && SeasonLine()(r) == line) == yes
  }

  /** The same tables with one season price listed before all others. */
  function ListedFirst(t: PriceTables, plan: Id, line: PriceLine): PriceTables {
    t.(seasons := Filter(SeasonsPricedAs(plan, line, true), t.seasons) + Filter(SeasonsPricedAs(plan, line, false), t.seasons))
  }

  lemma {:induction false} PartitionMultiset<T(!new)>(p: T -> bool, q: T -> bool, s: seq<T>)
    requires forall x :: p(x) != q(x)
    ensures multiset(Filter(p, s) + Filter(q, s)) == multiset(s)
  {
    if s != [] {
      PartitionMultiset(p, q, s[1..]);
      assert s == [s[0]] + s[1..];
    }
  }

  lemma ListedFirstSamePrices(t: PriceTables, plan: Id, line: PriceLine)
    ensures multiset(PlanPrices(ListedFirst(t, plan, line), plan)) == multiset(PlanPrices(t, plan))
  {
    PartitionMultiset(SeasonsPricedAs(plan, line, true), SeasonsPricedAs(plan, line, false), t.seasons);
    FilterMultiset(SeasonOfPlan(plan), ListedFirst(t, plan, line).seasons, t.seasons);
    MapMultiset(SeasonLine(), Filter(SeasonOfPlan(plan), ListedFirst(t, plan, line).seasons), Filter(SeasonOfPlan(plan), t.seasons));
  }

  /** Rows that tie keep the order the tables list them in. */
  lemma TiedRows(c: Collation, t: PriceTables, plan: Id, k: PriceKey)
    requires Orders(c)
    ensures Filter(WithKey(k), PricePart(c, t, plan)) == Filter(WithKey(k), PlanPrices(t, plan))
  {
    FilterSort(c.prices, WithKey(k), PlanPrices(t, plan));
    SortTies(c.prices, Filter(WithKey(k), PlanPrices(t, plan)));
  }

  lemma ListedFirstLeads(t: PriceTables, plan: Id, line: PriceLine)
    requires line.kind == SEASON && line in PlanPrices(t, plan)
    ensures var tied := Filter(WithKey(PriceKeyOf(line)), PlanPrices(ListedFirst(t, plan, line), plan)); tied != [] && tied[0] == line
  {
    var k := WithKey(PriceKeyOf(line));
    var first, rest := Filter(SeasonsPricedAs(plan, line, true), t.seasons), Filter(SeasonsPricedAs(plan, line, false), t.seasons);
    var days := Map(DayLine(), Filter(DayOfPlan(plan), t.days));
    var standards := Map(StandardLine(), Filter(StandardOfPlan(plan), t.standards));
    SeasonRowOf(t, plan, line);
    FilterConcat(SeasonOfPlan(plan), first, rest);
    FilterAll(SeasonOfPlan(plan), first);
    var restLines := Map(SeasonLine(), Filter(SeasonOfPlan(plan), rest));
    MapConcat(SeasonLine(), first, Filter(SeasonOfPlan(plan), rest));
    assert Map(SeasonLine(), first)[0] == line;
    FilterAll(k, days);
    FilterConcat(k, days + (Map(SeasonLine(), first) + restLines), standards);
    FilterConcat(k, days, Map(SeasonLine(), first) + restLines);
    FilterConcat(k, Map(SeasonLine(), first), restLines);
  }

  lemma SeasonRowOf(t: PriceTables, plan: Id, line: PriceLine)
    requires line.kind == SEASON && line in PlanPrices(t, plan)
    ensures var first := Filter(SeasonsPricedAs(plan, line, true), t.seasons);
            first != [] && forall r :: r in first ==> r.plan == plan && SeasonLine()(r) == line
  {
    var mine := Filter(SeasonOfPlan(plan), t.seasons);
    var lines := Map(SeasonLine(), mine);
    assert line in lines;
    var i :| 0 <= i < |lines| && lines[i] == line;
    assert mine[i] in t.seasons && mine[i] in Filter(SeasonsPricedAs(plan, line, true), t.seasons);
  }

  /** Two season prices for one window and guest count: listing the other one first moves the fingerprint without a notice. */
  lemma TiedSeasonsMoveSilently(c: Collation, le: (SnapshotLine, SnapshotLine) -> bool, t: PriceTables, plan: Id, x: PriceLine, y: PriceLine)
    requires Orders(c) && StringOrder(le)
    requires x in PlanPrices(t, plan) && y in PlanPrices(t, plan) && x != y && PriceKeyOf(x) == PriceKeyOf(y) && x.kind == SEASON
    ensures exists b :: PriceSnapshot(le, t, plan) == PriceSnapshot(le, b, plan) && PricePart(c, t, plan) != PricePart(c, b, plan)
  {
    var a, b := ListedFirst(t, plan, x), ListedFirst(t, plan, y);
    ListedFirstSamePrices(t, plan, x);
    ListedFirstSamePrices(t, plan, y);
    SnapshotDecides(le, t, a, plan);
    SnapshotDecides(le, t, b, plan);
    ListedFirstLeads(t, plan, x);
    ListedFirstLeads(t, plan, y);
    TiedRows(c, a, plan, PriceKeyOf(x));
    TiedRows(c, b, plan, PriceKeyOf(x));
    assert PricePart(c, a, plan) != PricePart(c, b, plan);
  }

  lemma DayLinesUnique(t: PriceTables, plan: Id, x: PriceLine, y: PriceLine)
    requires UniqueKeys(DayKeyOf(), t.days) && PriceKeyOf(x) == PriceKeyOf(y)
    requires x in Map(DayLine(), Filter(DayOfPlan(plan), t.days)) && y in Map(DayLine(), Filter(DayOfPlan(plan), t.days))
    ensures x == y
  {
    var rows := Filter(DayOfPlan(plan), t.days);
    FilterUnique(DayKeyOf(), DayOfPlan(plan), t.days);
    var i :| 0 <= i < |rows| && Map(DayLine(), rows)[i] == x;
    var j :| 0 <= j < |rows| && Map(DayLine(), rows)[j] == y;
    assert rows[i] in rows && rows[j] in rows;
    assert DayKeyOf()(rows[i]) == DayKeyOf()(rows[j]);
  }

  lemma StandardLinesUnique(t: PriceTables, plan: Id, x: PriceLine, y: PriceLine)
    requires UniqueKeys(StandardKeyOf(), t.standards) && PriceKeyOf(x) == PriceKeyOf(y)
    requires x in Map(StandardLine(), Filter(StandardOfPlan(plan), t.standards))
    requires y in Map(StandardLine(), Filter(StandardOfPlan(plan), t.standards))
    ensures x == y
  {
    var rows := Filter(StandardOfPlan(plan), t.standards);
    FilterUnique(StandardKeyOf(), StandardOfPlan(plan), t.standards);
    var i :| 0 <= i < |rows| && Map(StandardLine(), rows)[i] == x;
    var j :| 0 <= j < |rows| && Map(StandardLine(), rows)[j] == y;
    assert rows[i] in rows && rows[j] in rows;
    assert StandardKeyOf()(rows[i]) == StandardKeyOf()(rows[j]);
  }

  lemma SeasonLinesUnique(t: PriceTables, plan: Id, x: PriceLine, y: PriceLine)
    requires UniqueKeys(SeasonKeyOf(), t.seasons) && PriceKeyOf(x) == PriceKeyOf(y)
    requires x in Map(SeasonLine(), Filter(SeasonOfPlan(plan), t.seasons)) && y in Map(SeasonLine(), Filter(SeasonOfPlan(plan), t.seasons))
    ensures x == y
  {
    var rows := Filter(SeasonOfPlan(plan), t.seasons);
    FilterUnique(SeasonKeyOf(), SeasonOfPlan(plan), t.seasons);
    var i :| 0 <= i < |rows| && Map(SeasonLine(), rows)[i] == x;
    var j :| 0 <= j < |rows| && Map(SeasonLine(), rows)[j] == y;
    assert rows[i] in rows && rows[j] in rows;
    assert SeasonKeyOf()(rows[i]) == SeasonKeyOf()(rows[j]);
  }

  /** Only seasons can give two rows for one window and guest count. */
  lemma SchemaRows(t: PriceTables, plan: Id, x: PriceLine, y: PriceLine)
    requires SchemaKeys(t)
    requires x in PlanPrices(t, plan) && y in PlanPrices(t, plan) && PriceKeyOf(x) == PriceKeyOf(y)
    ensures x == y || (x.kind == SEASON && y.kind == SEASON)
  {
    if x.kind == DAY {
      DayLinesUnique(t, plan, x, y);
    } else if x.kind == STANDARD {
      StandardLinesUnique(t, plan, x, y);
    }
  }

  /** The snapshot follows the fingerprint through every change exactly when the plan has one row per window and guest count. */
  lemma NoticeReliableIff(c: Collation, le: (SnapshotLine, SnapshotLine) -> bool, t: PriceTables, plan: Id)
    requires Orders(c) && StringOrder(le) && SchemaKeys(t)
    ensures (forall b :: PriceSnapshot(le, t, plan) == PriceSnapshot(le, b, plan) <==> PricePart(c, t, plan) == PricePart(c, b, plan))
            <==> OneRowPerKey(PlanPrices(t, plan))
  {
    if OneRowPerKey(PlanPrices(t, plan)) {
      forall b ensures PriceSnapshot(le, t, plan) == PriceSnapshot(le, b, plan) <==> PricePart(c, t, plan) == PricePart(c, b, plan) {
        NoticeMatchesFingerprint(c, le, t, b, plan);
      }
    } else {
      var lines := PlanPrices(t, plan);
      var x, y :| x in lines && y in lines && PriceKeyOf(x) == PriceKeyOf(y) && x != y;
      SchemaRows(t, plan, x, y);
      TiedSeasonsMoveSilently(c, le, t, plan, x, y);
    }
  }

  // ── Runs of the price editor ─────────────────────────────────────────────

  /** Every season is sent with at most one price for a category and guest count. */
  ghost predicate SentOnce(e: Edit) {
    e.ReplaceSeasons? ==> UniqueKeys(SeasonKeyOf(), SeasonRows(e.plan, e.currency, e.seasons))
  }

  ghost predicate OneRowEverywhere(t: PriceTables) {
    SchemaKeys(t) && UniqueKeys(SeasonKeyOf(), t.seasons)
  }

  lemma OneRowForPlan(t: PriceTables, plan: Id)
    requires OneRowEverywhere(t)
    ensures OneRowPerKey(PlanPrices(t, plan))
  {
    var lines := PlanPrices(t, plan);
    forall x, y | x in lines && y in lines && PriceKeyOf(x) == PriceKeyOf(y) ensures x == y {
      SchemaRows(t, plan, x, y);
      if x.kind == SEASON && y.kind == SEASON {
        SeasonLinesUnique(t, plan, x, y);
      }
    }
  }

  lemma EditKeepsOneRow(t: PriceTables, e: Edit)
    requires OneRowEverywhere(t) && SentOnce(e) && Refusal(t, e).None?
    ensures OneRowEverywhere(Edited(t, e))
  {
    EditKeepsSchema(t, e);
    if e.ReplaceSeasons? {
      var rest, rows := Filter(SeasonOfOther(e.plan), t.seasons), SeasonRows(e.plan, e.currency, e.seasons);
      FilterUnique(SeasonKeyOf(), SeasonOfOther(e.plan), t.seasons);
      AllOfPlan(e.plan, e.currency, e.seasons);
      forall i, j | 0 <= i < |rest| && 0 <= j < |rows| ensures SeasonKeyOf()(rest[i]) != SeasonKeyOf()(rows[j]) {
        assert rest[i] in rest && rows[j] in rows;
      }
    }
  }

  datatype Editor = Editor(tables: PriceTables, notices: seq<Id>)

  function EditStep(le: (SnapshotLine, SnapshotLine) -> bool, s: Editor, e: Edit): Editor {
    if Refusal(s.tables, e).Some? then s
    else Editor(Edited(s.tables, e), s.notices + Notices(le, s.tables, e))
  }

  function EditRun(le: (SnapshotLine, SnapshotLine) -> bool, s: Editor, edits: seq<Edit>): Editor {
    if edits == [] then s else EditStep(le, EditRun(le, s, edits[..|edits|-1]), edits[|edits|-1])
  }

  /** A notice for the plan was requested between the two states. */
  ghost predicate ToldSince(s: Editor, t: Editor, plan: Id) {
    s.notices <= t.notices && plan in t.notices[|s.notices|..]
  }

  lemma ToldChain(s: Editor, m: Editor, t: Editor, plan: Id)
    requires s.notices <= m.notices <= t.notices
    ensures ToldSince(s, t, plan) <==> ToldSince(s, m, plan) || ToldSince(m, t, plan)
  {
    assert t.notices[|s.notices|..] == m.notices[|s.notices|..] + t.notices[|m.notices|..];
  }

  lemma NoticeStep(c: Collation, le: (SnapshotLine, SnapshotLine) -> bool, s: Editor, e: Edit, plan: Id)
    requires Orders(c) && StringOrder(le) && OneRowEverywhere(s.tables) && SentOnce(e)
    ensures OneRowEverywhere(EditStep(le, s, e).tables) && s.notices <= EditStep(le, s, e).notices
    ensures PricePart(c, EditStep(le, s, e).tables, plan) != PricePart(c, s.tables, plan) <==> ToldSince(s, EditStep(le, s, e), plan)
  {
    if Refusal(s.tables, e).None? {
      EditKeepsOneRow(s.tables, e);
      OneRowForPlan(s.tables, plan);
      NoticeWhenPricesMove(c, le, s.tables, e, plan);
      assert EditStep(le, s, e).notices[|s.notices|..] == Notices(le, s.tables, e);
    }
  }

  /** A plan whose price part has moved over a run of edits was named in a notice on the way. */
  lemma {:induction false} NoSilentMove(c: Collation, le: (SnapshotLine, SnapshotLine) -> bool, s: Editor, edits: seq<Edit>, plan: Id)
    requires Orders(c) && StringOrder(le)
    requires OneRowEverywhere(s.tables) && forall e :: e in edits ==> SentOnce(e)
    ensures OneRowEverywhere(EditRun(le, s, edits).tables)
    ensures s.notices <= EditRun(le, s, edits).notices
    ensures PricePart(c, EditRun(le, s, edits).tables, plan) != PricePart(c, s.tables, plan) ==> ToldSince(s, EditRun(le, s, edits), plan)
  {
    if edits != [] {
      var e := edits[|edits|-1];
      var mid := EditRun(le, s, edits[..|edits|-1]);
      NoSilentMove(c, le, s, edits[..|edits|-1], plan);
      assert e in edits;
      NoticeStep(c, le, mid, e, plan);
      ToldChain(s, mid, EditStep(le, mid, e), plan);
    }
  }

  // ── The service ──────────────────────────────────────────────────────────

  function RowOf<T>(planOf: T -> Id, plan: Id): T -> bool {
    (r: T) => planOf(r) == plan
  }

  /** Looks for a season that ends before it starts. */
  method AnyBackwards(seasons: seq<SeasonInput>) returns (found: bool)
    ensures found <==> exists s :: s in seasons && s.dateTo < s.dateFrom
  {
    for i := 0 to |seasons|
      invariant forall j :: 0 <= j < i ==> seasons[j].dateFrom <= seasons[j].dateTo
    {
      if seasons[i].dateTo < seasons[i].dateFrom {
        assert seasons[i] in seasons;
        return true;
      }
    }
    found := false;
  }

  /** Adds one table's lines to the plans they belong to; plans not asked for are passed over. */
  method PushLines<T(!new)>(rows: seq<T>, ids: seq<Id>, start: map<Id, seq<SnapshotLine>>, planOf: T -> Id, snap: T -> SnapshotLine)
    returns (lines: map<Id, seq<SnapshotLine>>)
    requires forall id :: id in start <==> id in ids
    ensures forall id :: id in lines <==> id in ids
    ensures forall id :: id in ids ==> lines[id] == start[id] + Map(snap, Filter(RowOf(planOf, id), rows))
  {
    lines := start;
    for i := 0 to |rows|
      invariant forall id :: id in lines <==> id in ids
      invariant forall id :: id in ids ==> lines[id] == start[id] + Map(snap, Filter(RowOf(planOf, id), rows[..i]))
    {
      forall id | id in ids
        ensures Map(snap, Filter(RowOf(planOf, id), rows[..i+1]))
                == Map(snap, Filter(RowOf(planOf, id), rows[..i])) + if planOf(rows[i]) == id then [snap(rows[i])] else []
      {
        FilterNext(RowOf(planOf, id), rows, i);
      }
      if planOf(rows[i]) in lines {
        lines := lines[planOf(rows[i]) := lines[planOf(rows[i])] + [snap(rows[i])]];
      }
    }
    assert rows[..|rows|] == rows;
  }

  class RatesService {
    var tables: PriceTables
    var notices: seq<Id>
    const stringOrder: (SnapshotLine, SnapshotLine) -> bool

    constructor (tables: PriceTables, stringOrder: (SnapshotLine, SnapshotLine) -> bool)
      ensures this.tables == tables && notices == [] && this.stringOrder == stringOrder
    {
      this.tables, notices, this.stringOrder := tables, [], stringOrder;
    }

    /** The sorted lines of each plan's prices, collected in one pass over each table. */
    method Snapshot(ids: seq<Id>) returns (lines: map<Id, seq<SnapshotLine>>)
      ensures forall id :: id in ids ==> id in lines && lines[id] == PriceSnapshot(stringOrder, tables, id)
    {
      var none := map id | id in ids :: [];
      var days := PushLines(tables.days, ids, none, (r: DayRate) => r.plan, DaySnap());
      var seasons := PushLines(tables.seasons, ids, days, (r: Season) => r.plan, SeasonSnap());
      var all := PushLines(tables.standards, ids, seasons, (r: StandardRate) => r.plan, StandardSnap());
      forall id | id in ids ensures all[id] == SnapshotLines(tables, id) {
        FilterAgree(RowOf((r: DayRate) => r.plan, id), DayOfPlan(id), tables.days);
        FilterAgree(RowOf((r: Season) => r.plan, id), SeasonOfPlan(id), tables.seasons);
        FilterAgree(RowOf((r: StandardRate) => r.plan, id), StandardOfPlan(id), tables.standards);
      }
      lines := map id | id in ids :: Sort(stringOrder, all[id]);
    }

    /** Tells the partner about each plan whose snapshot is not what it was. */
    method PricesChanged(ids: seq<Id>, before: map<Id, seq<SnapshotLine>>, ghost was: PriceTables)
      requires forall id :: id in ids ==> id in before && before[id] == PriceSnapshot(stringOrder, was, id)
      modifies this`notices
      ensures notices == old(notices) + Filter(Moved(stringOrder, was, tables), ids)
    {
      var after := Snapshot(ids);
      forall i | 0 <= i < |ids| ensures ids[i] in before && ids[i] in after {
        var former, now := PriceSnapshot(stringOrder, was, ids[i]), PriceSnapshot(stringOrder, tables, ids[i]);
        assert ids[i] in ids;
      }
      Announce(ids, before, after, Moved(stringOrder, was, tables));
    }

    /** One notice for each plan whose two snapshots differ, in order. */
    method Announce(ids: seq<Id>, before: map<Id, seq<SnapshotLine>>, after: map<Id, seq<SnapshotLine>>, ghost moved: Id -> bool)
      requires forall i :: 0 <= i < |ids| ==> ids[i] in before && ids[i] in after && (moved(ids[i]) <==> before[ids[i]] != after[ids[i]])
      modifies this`notices
      ensures notices == old(notices) + Filter(moved, ids)
    {
      ghost var sent := notices;
      for i := 0 to |ids|
        invariant notices == sent + Filter(moved, ids[..i])
      {
        FilterNext(moved, ids, i);
        if before[ids[i]] != after[ids[i]] {
          notices := notices + [ids[i]];
        }
      }
      assert ids[..|ids|] == ids;
    }

    method BulkUpsert(items: seq<RateItem>) returns (r: Outcome)
      modifies this
      ensures r == Written(|items|)
      ensures tables == Edited(old(tables), Edit.BulkUpsert(items))
      ensures notices == old(notices) + Notices(stringOrder, old(tables), Edit.BulkUpsert(items))
    {
      var ids := Distinct(Map(PlanOf(), items));
      var before := Snapshot(ids);
      ghost var was := tables;
      ghost var rows := Map(ItemRow(), items);
      for i := 0 to |items|
        invariant tables == was.(days := PutAll(DayKeyOf(), was.days, rows[..i])) && notices == old(notices)
      {
        assert rows[..i+1][..i] == rows[..i];
        tables := tables.(days := Put(DayKeyOf(), tables.days, ItemRow()(items[i])));
      }
      assert rows[..|items|] == rows;
      PricesChanged(ids, before, was);
      r := Written(|items|);
    }

    method FillRange(f: Fill) returns (r: Outcome)
      modifies this
      ensures Refusal(old(tables), Edit.FillRange(f)).Some? ==>
                r == BadRequest && tables == old(tables) && notices == old(notices)
      ensures Refusal(old(tables), Edit.FillRange(f)).None? ==>
                && r == Written(f.to - f.from + 1)
                && tables == Edited(old(tables), Edit.FillRange(f))
                && notices == old(notices) + Notices(stringOrder, old(tables), Edit.FillRange(f))
    {
      var before := Snapshot([f.plan]);
      if f.to < f.from {
        return BadRequest;
      }
      var days := f.to - f.from + 1;
      if days > MAX_FILL_DAYS {
        return BadRequest;
      }
      ghost var was := tables;
      FillDays(f, days);
      PricesChanged([f.plan], before, was);
      r := Written(days);
    }

    /** Day after day, one price for all of them. */
    method FillDays(f: Fill, days: nat)
      modifies this`tables
      ensures tables == old(tables).(days := PutAll(DayKeyOf(), old(tables.days), FillRows(f, days)))
    {
      ghost var was := tables;
      ghost var rows := FillRows(f, days);
      for i := 0 to days
        invariant tables == was.(days := PutAll(DayKeyOf(), was.days, rows[..i]))
      {
        assert rows[..i+1][..i] == rows[..i];
        tables := tables.(days := Put(DayKeyOf(), tables.days, FillRow(f, i)));
      }
      assert rows[..days] == rows;
    }

    method SetStandard(plan: Id, prices: seq<PriceItem>, currency: Option<string>) returns (r: Outcome)
      modifies this
      ensures r == Saved
      ensures tables == Edited(old(tables), Edit.SetStandard(plan, prices, currency))
      ensures notices == old(notices) + Notices(stringOrder, old(tables), Edit.SetStandard(plan, prices, currency))
    {
      var before := Snapshot([plan]);
      ghost var was := tables;
      ghost var rows := StandardRows(plan, prices, currency);
      for i := 0 to |prices|
        invariant tables == was.(standards := SetAll(was.standards, rows[..i])) && notices == old(notices)
      {
        assert rows[..i+1][..i] == rows[..i];
        var row := StandardRow(plan, currency, prices[i]);
        if prices[i].price > 0 {
          tables := tables.(standards := Put(StandardKeyOf(), tables.standards, row));
        } else {
          tables := tables.(standards := Filter(OtherKey(StandardKeyOf(), StandardKeyOf()(row)), tables.standards));
        }
      }
      assert rows[..|prices|] == rows;
      PricesChanged([plan], before, was);
      r := Saved;
    }

    method ReplaceSeasons(plan: Id, seasons: seq<SeasonInput>, currency: Option<string>) returns (r: Outcome)
      modifies this
      ensures (exists s :: s in seasons && s.dateTo < s.dateFrom) ==>
                r == BadRequest && tables == old(tables) && notices == old(notices)
      ensures !(exists s :: s in seasons && s.dateTo < s.dateFrom) ==>
                && r == Saved
                && tables == Edited(old(tables), Edit.ReplaceSeasons(plan, seasons, currency))
                && notices == old(notices) + Notices(stringOrder, old(tables), Edit.ReplaceSeasons(plan, seasons, currency))
    {
      var before := Snapshot([plan]);
      var backwards := AnyBackwards(seasons);
      if backwards {
        return BadRequest;
      }
      ghost var was := tables;
      tables := tables.(seasons := Filter(SeasonOfOther(plan), tables.seasons) + SeasonRows(plan, currency, seasons));
      PricesChanged([plan], before, was);
      r := Saved;
    }

    method Remove(key: DayKey) returns (r: Outcome)
      modifies this
      ensures Refusal(old(tables), RemoveRate(key)).Some? ==> r == NotFound && tables == old(tables) && notices == old(notices)
      ensures Refusal(old(tables), RemoveRate(key)).None? ==>
                && r == Saved
                && tables == Edited(old(tables), RemoveRate(key))
                && notices == old(notices) + Notices(stringOrder, old(tables), RemoveRate(key))
    {
      if Find(DayKeyOf(), tables.days, key).None? {
        return NotFound;
      }
      tables := tables.(days := Filter(OtherKey(DayKeyOf(), key), tables.days));
      notices := notices + [key.plan];
      r := Saved;
    }
  }
}
