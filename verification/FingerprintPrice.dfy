/**
 * What a confirmed fingerprint is worth: it determines what the plan charges.
 * A season's sort order decides between seasons but is not fingerprinted, so
 * the claim needs seasons whose order does not matter; when it does is settled
 * exactly.
 */
module FingerprintPrice {
  import opened Options
  import opened Sequences
  import opened Tariffs
  import opened RateResolution
  import opened Availability
  import opened Fingerprint

  /** The same season but for its sort order. */
  ghost predicate SameButOrder(x: Season, y: Season) {
    x.(sortOrder := 0) == y.(sortOrder := 0)
  }

  /** The list holds this season, under some sort order. */
  ghost predicate Holds(a: seq<Season>, z: Season) {
    exists x :: x in a && SameButOrder(x, z)
  }

  ghost predicate SeasonsCorrespond(a: seq<Season>, b: seq<Season>) {
    forall z :: Holds(a, z) <==> Holds(b, z)
  }

  lemma Counterpart(a: seq<Season>, b: seq<Season>, x: Season) returns (y: Season)
    requires SeasonsCorrespond(a, b) && x in a
    ensures y in b && SameButOrder(x, y)
  {
    assert SameButOrder(x, x);
    assert Holds(a, x);
    y :| y in b && SameButOrder(y, x);
  }

  /** The plan's seasons of one category that start together end together and share a sort order. */
  ghost predicate Tidy(seasons: seq<Season>, plan: Id) {
    forall x, y :: x in seasons && y in seasons && x.plan == y.plan == plan && x.room == y.room && x.dateFrom == y.dateFrom ==>
      x.dateTo == y.dateTo && x.sortOrder == y.sortOrder
  }

  // ── From equal fingerprints to corresponding rows ────────────────────────

  lemma LineOfDay(t: PriceTables, plan: Id, r: DayRate)
    requires r.plan == plan
    ensures r in t.days <==> DayLine()(r) in PlanPrices(t, plan)
  {
    var rows := Filter(DayOfPlan(plan), t.days);
    MapMember(DayLine(), rows);
    LineKinds(t, plan);
  }

  lemma LineOfStandard(t: PriceTables, plan: Id, r: StandardRate)
    requires r.plan == plan
    ensures r in t.standards <==> StandardLine()(r) in PlanPrices(t, plan)
  {
    MapMember(StandardLine(), Filter(StandardOfPlan(plan), t.standards));
    LineKinds(t, plan);
  }

  lemma LineOfSeason(t: PriceTables, plan: Id, r: Season)
    requires r.plan == plan
    ensures Holds(t.seasons, r) <==> SeasonLine()(r) in PlanPrices(t, plan)
  {
    var rows := Filter(SeasonOfPlan(plan), t.seasons);
    MapMember(SeasonLine(), rows);
    LineKinds(t, plan);
    if x :| x in t.seasons && SameButOrder(x, r) {
      assert x in rows;
    }
    if SeasonLine()(r) in PlanPrices(t, plan) {
      var x :| x in rows && SeasonLine()(x) == SeasonLine()(r);
      assert SameButOrder(x, r);
    }
  }

  lemma MapMember<T(!new), U>(f: T -> U, s: seq<T>)
    ensures forall u :: u in Map(f, s) <==> exists x :: x in s && f(x) == u
  {
    forall u ensures u in Map(f, s) <==> exists x :: x in s && f(x) == u {
      if u in Map(f, s) {
        var i :| 0 <= i < |s| && Map(f, s)[i] == u;
        assert s[i] in s;
      }
      if x :| x in s && f(x) == u {
        var i :| 0 <= i < |s| && s[i] == x;
        assert Map(f, s)[i] == u;
      }
    }
  }

  /** A line of a kind comes from the table of that kind. */
  lemma LineKinds(t: PriceTables, plan: Id)
    ensures forall l :: l in PlanPrices(t, plan) && l.kind == DAY ==> l in Map(DayLine(), Filter(DayOfPlan(plan), t.days))
    ensures forall l :: l in PlanPrices(t, plan) && l.kind == SEASON ==> l in Map(SeasonLine(), Filter(SeasonOfPlan(plan), t.seasons))
    ensures forall l :: l in PlanPrices(t, plan) && l.kind == STANDARD ==> l in Map(StandardLine(), Filter(StandardOfPlan(plan), t.standards))
  {
    MapMember(DayLine(), Filter(DayOfPlan(plan), t.days));
    MapMember(SeasonLine(), Filter(SeasonOfPlan(plan), t.seasons));
    MapMember(StandardLine(), Filter(StandardOfPlan(plan), t.standards));
  }

  /** The rows of a plan agree, up to the sort order of seasons. */
  ghost predicate SameBook(a: PriceTables, b: PriceTables, plan: Id) {
    && (forall r: DayRate :: r.plan == plan ==> (r in a.days <==> r in b.days))
    && (forall r: StandardRate :: r.plan == plan ==> (r in a.standards <==> r in b.standards))
    && (forall z: Season :: z.plan == plan ==> (Holds(a.seasons, z) <==> Holds(b.seasons, z)))
  }

  lemma SamePricesSameBook(a: PriceTables, b: PriceTables, plan: Id)
    requires multiset(PlanPrices(a, plan)) == multiset(PlanPrices(b, plan))
    ensures SameBook(a, b, plan)
  {
    forall l ensures l in PlanPrices(a, plan) <==> l in PlanPrices(b, plan) {
      assert l in PlanPrices(a, plan) <==> l in multiset(PlanPrices(a, plan));
      assert l in PlanPrices(b, plan) <==> l in multiset(PlanPrices(b, plan));
    }
    forall r: DayRate | r.plan == plan ensures r in a.days <==> r in b.days {
      LineOfDay(a, plan, r);
      LineOfDay(b, plan, r);
    }
    forall r: StandardRate | r.plan == plan ensures r in a.standards <==> r in b.standards {
      LineOfStandard(a, plan, r);
      LineOfStandard(b, plan, r);
    }
    forall z: Season | z.plan == plan ensures Holds(a.seasons, z) <==> Holds(b.seasons, z) {
      LineOfSeason(a, plan, z);
      LineOfSeason(b, plan, z);
    }
  }

  /** One price per window and guest count in each of the three stores. */
  ghost predicate OnePricePerKey(t: PriceTables, plan: Id) {
    && (forall x, y :: x in t.days && y in t.days && x.plan == plan && y.plan == plan && SameDayKey(x, y) ==> x.price == y.price)
    && (forall x, y :: x in t.seasons && y in t.seasons && x.plan == plan && y.plan == plan && SameSeasonKey(x, y) ==> x.price == y.price)
    && (forall x, y :: x in t.standards && y in t.standards && x.plan == plan && y.plan == plan && SameStandardKey(x, y) ==> x.price == y.price)
  }

  ghost predicate SameDayKey(x: DayRate, y: DayRate) {
    x.room == y.room && x.date == y.date && x.occupancy == y.occupancy
  }

  ghost predicate SameSeasonKey(x: Season, y: Season) {
    x.room == y.room && x.dateFrom == y.dateFrom && x.dateTo == y.dateTo && x.occupancy == y.occupancy
  }

  ghost predicate SameStandardKey(x: StandardRate, y: StandardRate) {
    x.room == y.room && x.occupancy == y.occupancy
  }

  lemma UniqueRowsOnePrice(t: PriceTables, plan: Id)
    requires OneRowPerKey(PlanPrices(t, plan))
    ensures OnePricePerKey(t, plan)
  {
    forall x, y | x in t.days && y in t.days && x.plan == plan && y.plan == plan && SameDayKey(x, y) ensures x.price == y.price {
      LineOfDay(t, plan, x);
      LineOfDay(t, plan, y);
      assert PriceKeyOf(DayLine()(x)) == PriceKeyOf(DayLine()(y));
    }
    forall x, y | x in t.seasons && y in t.seasons && x.plan == plan && y.plan == plan && SameSeasonKey(x, y) ensures x.price == y.price {
      assert SameButOrder(x, x) && SameButOrder(y, y);
      LineOfSeason(t, plan, x);
      LineOfSeason(t, plan, y);
      assert PriceKeyOf(SeasonLine()(x)) == PriceKeyOf(SeasonLine()(y));
    }
    forall x, y | x in t.standards && y in t.standards && x.plan == plan && y.plan == plan && SameStandardKey(x, y) ensures x.price == y.price {
      LineOfStandard(t, plan, x);
      LineOfStandard(t, plan, y);
      assert PriceKeyOf(StandardLine()(x)) == PriceKeyOf(StandardLine()(y));
    }
  }

  // ── From corresponding rows to equal prices ──────────────────────────────

  ghost predicate OneCategory(a: seq<Season>, plan: Id) {
    forall x, y :: x in a && y in a ==> x.plan == plan && x.room == y.room
  }

  ghost predicate OnePricePerStart(a: seq<Season>) {
    forall x, y :: x in a && y in a && x.dateFrom == y.dateFrom && x.occupancy == y.occupancy ==> x.price == y.price
  }

  /** The seasons chosen on the two sides start together. */
  lemma TopsCorrespond(a: seq<Season>, b: seq<Season>, day: Day)
    requires SeasonsCorrespond(a, b)
    ensures Top(a, day).Some? == Top(b, day).Some?
    ensures Top(a, day).Some? ==> Top(a, day).value in a && Top(b, day).value in b
                                  && Top(a, day).value.dateFrom == Top(b, day).value.dateFrom
  {
    TopMeaning(a, day);
    TopMeaning(b, day);
    if Top(a, day).Some? {
      var x := Counterpart(a, b, Top(a, day).value);
    }
    if Top(b, day).Some? {
      var y := Counterpart(b, a, Top(b, day).value);
    }
  }

  lemma SeasonPriceSame(a: seq<Season>, b: seq<Season>, plan: Id, day: Day, guests: nat)
    requires SeasonsCorrespond(a, b) && OneCategory(a, plan) && Tidy(a, plan) && Tidy(b, plan) && OnePricePerStart(a)
    ensures SeasonPrice(a, day, guests) == SeasonPrice(b, day, guests)
  {
    TopsCorrespond(a, b, day);
    if Top(a, day).Some? {
      var x, y := Top(a, day).value, Top(b, day).value;
      var y' := Counterpart(b, a, y);
      forall s | s in b ensures s.plan == y.plan && s.room == y.room {
        var s' := Counterpart(b, a, s);
      }
      WindowIsStart(a, x);
      WindowIsStart(b, y);
      WindowOffersSame(a, b, Filter(WindowOf(x), a), Filter(WindowOf(y), b), x.dateFrom, guests);
    }
  }

  /** In a tidy category a window is all the seasons of one start. */
  lemma WindowIsStart(a: seq<Season>, x: Season)
    requires x in a && Tidy(a, x.plan) && forall s :: s in a ==> s.plan == x.plan && s.room == x.room
    ensures forall s :: s in Filter(WindowOf(x), a) <==> s in a && s.dateFrom == x.dateFrom
  {
  }

  lemma WindowOffersSame(a: seq<Season>, b: seq<Season>, wa: seq<Season>, wb: seq<Season>, start: Day, guests: nat)
    requires SeasonsCorrespond(a, b) && OnePricePerStart(a)
    requires forall s :: s in wa <==> s in a && s.dateFrom == start
    requires forall s :: s in wb <==> s in b && s.dateFrom == start
    ensures PickByOccupancy(Map(SeasonOffer(), wa), guests) == PickByOccupancy(Map(SeasonOffer(), wb), guests)
  {
    var oa, ob := Map(SeasonOffer(), wa), Map(SeasonOffer(), wb);
    OfferMembers(wa);
    OfferMembers(wb);
    forall o ensures o in oa <==> o in ob {
      if o in oa {
        var s :| s in wa && o == Offer(s.occupancy, s.price);
        var s' := Counterpart(a, b, s);
      }
      if o in ob {
        var s :| s in wb && o == Offer(s.occupancy, s.price);
        var s' := Counterpart(b, a, s);
      }
    }
    PickSame(oa, ob, guests);
  }

  lemma {:induction false} CheapestIsLeast(rows: seq<Offer>)
    requires rows != []
    ensures exists r :: r in rows && r.price == Cheapest(rows)
    ensures forall r :: r in rows ==> Cheapest(rows) <= r.price
  {
    if |rows| > 1 {
      CheapestIsLeast(rows[1..]);
      assert forall r :: r in rows <==> r == rows[0] || r in rows[1..];
    } else {
      assert rows[0] in rows;
    }
  }

  lemma DailySame(a: seq<Offer>, b: seq<Offer>, guests: nat, strict: bool)
    requires OnePricePerOccupancy(a) && (forall x :: x in a <==> x in b)
    ensures DailyPrice(a, guests, strict) == DailyPrice(b, guests, strict)
  {
    FirstForSame(a, b, guests);
    FirstForSame(a, b, 0);
    assert b != [] ==> b[0] in b;
    if a != [] {
      assert a[0] in b;
      CheapestIsLeast(a);
      CheapestIsLeast(b);
      assert Cheapest(a) == Cheapest(b);
    }
  }

  /** Corresponding price books price every night of the plan alike. */
  lemma OwnPriceSame(a: PriceTables, b: PriceTables, p: Plan, q: Plan, room: Id, date: Day, guests: nat)
    requires p.id == q.id && p.partner.Some? == q.partner.Some?
    requires SameBook(a, b, p.id) && OnePricePerKey(a, p.id)
    requires Tidy(a.seasons, p.id) && Tidy(b.seasons, p.id)
    ensures OwnPrice(a, p, room, date, guests) == OwnPrice(b, q, room, date, guests)
  {
    DaysSame(a, b, p.id, room, date, guests, p.partner.Some?);
    MineSame(a, b, p.id, room, date, guests);
    StandardOrderFree(Filter(StandardOf((p.id, room)), a.standards), Filter(StandardOf((p.id, room)), b.standards), guests);
  }

  lemma DaysSame(a: PriceTables, b: PriceTables, plan: Id, room: Id, date: Day, guests: nat, strict: bool)
    requires SameBook(a, b, plan) && OnePricePerKey(a, plan)
    ensures DailyPrice(Map(DayOffer(), Filter(DayOf(plan, room, date), a.days)), guests, strict)
            == DailyPrice(Map(DayOffer(), Filter(DayOf(plan, room, date), b.days)), guests, strict)
  {
    var da, db := Filter(DayOf(plan, room, date), a.days), Filter(DayOf(plan, room, date), b.days);
    assert forall x :: x in da <==> x in db;
    var oa, ob := Map(DayOffer(), da), Map(DayOffer(), db);
    MapMember(DayOffer(), da);
    MapMember(DayOffer(), db);
    forall o ensures o in oa <==> o in ob {
      assert o in oa <==> exists x :: x in da && DayOffer()(x) == o;
      assert o in ob <==> exists x :: x in db && DayOffer()(x) == o;
    }
    forall x, y | x in oa && y in oa && x.occupancy == y.occupancy ensures x.price == y.price {
      var r, s :| r in da && s in da && DayOffer()(r) == x && DayOffer()(s) == y;
      assert SameDayKey(r, s);
    }
    DailySame(oa, ob, guests, strict);
  }

  lemma MineSame(a: PriceTables, b: PriceTables, plan: Id, room: Id, date: Day, guests: nat)
    requires SameBook(a, b, plan) && OnePricePerKey(a, plan) && Tidy(a.seasons, plan) && Tidy(b.seasons, plan)
    ensures SeasonPrice(Filter(SeasonOf((plan, room)), a.seasons), date, guests)
            == SeasonPrice(Filter(SeasonOf((plan, room)), b.seasons), date, guests)
  {
    var sa, sb := Filter(SeasonOf((plan, room)), a.seasons), Filter(SeasonOf((plan, room)), b.seasons);
    forall x, y | x in sa && y in sa && x.dateFrom == y.dateFrom && x.occupancy == y.occupancy ensures x.price == y.price {
      assert SameSeasonKey(x, y);
    }
    forall z ensures Holds(sa, z) <==> Holds(sb, z) {
      MineHolds(a.seasons, plan, room, z);
      MineHolds(b.seasons, plan, room, z);
    }
    SeasonPriceSame(sa, sb, plan, date, guests);
  }

  lemma MineHolds(seasons: seq<Season>, plan: Id, room: Id, z: Season)
    ensures Holds(Filter(SeasonOf((plan, room)), seasons), z) <==> z.plan == plan && z.room == room && Holds(seasons, z)
  {
    var mine := Filter(SeasonOf((plan, room)), seasons);
    if z.plan == plan && z.room == room && Holds(seasons, z) {
      var x :| x in seasons && SameButOrder(x, z);
      assert x in mine;
    }
  }

  /** Loading the rows of a stay keeps the correspondence. */
  lemma LoadedSame(a: PriceTables, b: PriceTables, plan: Id, room: Id, checkIn: Day, checkOut: Day)
    requires SameBook(a, b, plan) && OnePricePerKey(a, plan) && Tidy(a.seasons, plan) && Tidy(b.seasons, plan)
    ensures var la, lb := Loaded(a, room, checkIn, checkOut), Loaded(b, room, checkIn, checkOut);
            SameBook(la, lb, plan) && OnePricePerKey(la, plan) && Tidy(la.seasons, plan) && Tidy(lb.seasons, plan)
  {
    var la, lb := Loaded(a, room, checkIn, checkOut), Loaded(b, room, checkIn, checkOut);
    forall z: Season | z.plan == plan ensures Holds(la.seasons, z) <==> Holds(lb.seasons, z) {
      LoadedHolds(a.seasons, room, checkIn, checkOut, z);
      LoadedHolds(b.seasons, room, checkIn, checkOut, z);
    }
  }

  lemma LoadedHolds(seasons: seq<Season>, room: Id, checkIn: Day, checkOut: Day, z: Season)
    ensures Holds(Filter(SeasonsLoaded(room, checkIn, checkOut), seasons), z)
            <==> SeasonsLoaded(room, checkIn, checkOut)(z) && Holds(seasons, z)
  {
    var loaded := Filter(SeasonsLoaded(room, checkIn, checkOut), seasons);
    if SeasonsLoaded(room, checkIn, checkOut)(z) && Holds(seasons, z) {
      var x :| x in seasons && SameButOrder(x, z);
      assert x in loaded;
    }
  }

  /** What a plan charges for a stay: the nights, their sum and the cheapest of them. */
  datatype Charge = Charge(perNight: seq<Night>, total: Cents, nightlyFrom: Option<Cents>)

  function ChargeFor(t: PriceTables, p: Plan, room: Id, checkIn: Day, checkOut: Day, guests: nat, base: Option<Cents>): Option<Charge> {
    match QuotePlan(Loaded(t, room, checkIn, checkOut), p, room, StayDates(checkIn, checkOut), guests, base)
    case None => None
    case Some(o) => Some(Charge(o.perNight, o.total, o.nightlyFrom))
  }

  /** The hypotheses the fingerprint cannot check: unique rows, and seasons whose order is settled by their dates. */
  ghost predicate Orderly(t: PriceTables, plan: Id) {
    OneRowPerKey(PlanPrices(t, plan)) && Tidy(t.seasons, plan)
  }

  /** Two states of a partner's plan with one fingerprint charge alike for every stay and party. */
  lemma FingerprintDeterminesCharge(c: Collation, docsA: seq<ContractDoc>, docsB: seq<ContractDoc>, p: Plan, q: Plan,
                                    a: PriceTables, b: PriceTables, room: Id, checkIn: Day, checkOut: Day, guests: nat,
                                    baseA: Option<Cents>, baseB: Option<Cents>)
    requires Orders(c) && Orderly(a, p.id) && Orderly(b, q.id)
    requires p.id == q.id && p.partner.Some? && q.partner.Some?
    requires TariffFingerprint(c, docsA, p, a) == TariffFingerprint(c, docsB, q, b)
    ensures ChargeFor(a, p, room, checkIn, checkOut, guests, baseA) == ChargeFor(b, q, room, checkIn, checkOut, guests, baseB)
  {
    PricePartDecides(c, a, b, p.id);
    SamePricesSameBook(a, b, p.id);
    UniqueRowsOnePrice(a, p.id);
    LoadedSame(a, b, p.id, room, checkIn, checkOut);
    var la, lb := Loaded(a, room, checkIn, checkOut), Loaded(b, room, checkIn, checkOut);
    var dates := StayDates(checkIn, checkOut);
    var na, nb := NightsOf(la, p, room, dates, guests, baseA), NightsOf(lb, q, room, dates, guests, baseB);
    forall i | 0 <= i < |dates| ensures na[i] == nb[i] {
      OwnPriceSame(la, lb, p, q, room, dates[i], guests);
    }
    assert na == nb;
  }

  // ── Exactly when the sort order matters ──────────────────────────────────

  /** Some reordering of the same seasons: only sort orders differ. */
  ghost predicate Resorted(a: seq<Season>, b: seq<Season>) {
    |a| == |b| && forall i :: 0 <= i < |a| ==> SameButOrder(a[i], b[i])
  }

  /** Seasons starting together say the same for everyone. */
  ghost predicate Uniform(a: seq<Season>) {
    forall x, y :: x in a && y in a && x.dateFrom == y.dateFrom ==> x.occupancy == y.occupancy && x.price == y.price
  }

  function WithOrder(a: seq<Season>, i: nat): (b: seq<Season>)
    requires i < |a|
    ensures Resorted(a, b)
    ensures forall j :: 0 <= j < |a| ==> b[j] == a[j].(sortOrder := if j == i then 1 else 0)
  {
    seq(|a|, j requires 0 <= j < |a| => a[j].(sortOrder := if j == i then 1 else 0))
  }

  /** Raising one season above its peers makes it the one that counts on its first day. */
  lemma RaisedSeasonCounts(a: seq<Season>, i: nat, guests: nat)
    requires i < |a| && a[i].dateFrom <= a[i].dateTo
    ensures SeasonPrice(WithOrder(a, i), a[i].dateFrom, guests) == PickByOccupancy([Offer(a[i].occupancy, a[i].price)], guests)
  {
    var b := WithOrder(a, i);
    TopMeaning(b, a[i].dateFrom);
    assert b[i] in b && Covers(b[i], a[i].dateFrom);
    var top := Top(b, a[i].dateFrom).value;
    assert Ranks(top, b[i]);
    var k :| 0 <= k < |b| && b[k] == top;
    assert k == i;
    OnlyRow(b, i);
    assert Map(SeasonOffer(), [b[i]]) == [Offer(a[i].occupancy, a[i].price)];
  }

  lemma OnlyRow(b: seq<Season>, i: nat)
    requires i < |b| && forall j :: 0 <= j < |b| && j != i ==> !SameWindow(b[j], b[i])
    ensures Filter(WindowOf(b[i]), b) == [b[i]]
  {
    assert b == b[..i] + ([b[i]] + b[i+1..]);
    FilterConcat(WindowOf(b[i]), b[..i], [b[i]] + b[i+1..]);
    FilterConcat(WindowOf(b[i]), [b[i]], b[i+1..]);
    FilterAll(WindowOf(b[i]), b[..i]);
    FilterAll(WindowOf(b[i]), b[i+1..]);
  }

  lemma UniformSame(a: seq<Season>, b: seq<Season>, day: Day, guests: nat)
    requires SeasonsCorrespond(a, b) && Uniform(a)
    ensures SeasonPrice(a, day, guests) == SeasonPrice(b, day, guests)
  {
    TopsCorrespond(a, b, day);
    if Top(a, day).Some? {
      var x, y := Top(a, day).value, Top(b, day).value;
      assert x in Filter(WindowOf(x), a) && y in Filter(WindowOf(y), b);
      forall s | s in Filter(WindowOf(y), b) ensures Offer(s.occupancy, s.price) == Offer(x.occupancy, x.price) {
        var s' := Counterpart(b, a, s);
      }
      OneOffer(Filter(WindowOf(x), a), Filter(WindowOf(y), b), Offer(x.occupancy, x.price), guests);
    }
  }

  lemma OneOffer(wa: seq<Season>, wb: seq<Season>, one: Offer, guests: nat)
    requires wa != [] && wb != []
    requires forall s :: s in wa ==> Offer(s.occupancy, s.price) == one
    requires forall s :: s in wb ==> Offer(s.occupancy, s.price) == one
    ensures PickByOccupancy(Map(SeasonOffer(), wa), guests) == PickByOccupancy(Map(SeasonOffer(), wb), guests)
  {
    OfferMembers(wa);
    OfferMembers(wb);
    assert wa[0] in wa && wb[0] in wb;
    PickSame(Map(SeasonOffer(), wa), Map(SeasonOffer(), wb), guests);
  }

  /**
   * The seasons of a plan and category price every day alike whatever sort
   * orders they carry, exactly when seasons starting on one day agree on guests
   * and price.
   */
  lemma SortOrderIrrelevantIff(a: seq<Season>)
    requires forall x :: x in a ==> x.dateFrom <= x.dateTo
    ensures (forall b, day, guests :: Resorted(a, b) ==> SeasonPrice(b, day, guests) == SeasonPrice(a, day, guests)) <==> Uniform(a)
  {
    if Uniform(a) {
      forall b, day, guests | Resorted(a, b) ensures SeasonPrice(b, day, guests) == SeasonPrice(a, day, guests) {
        ResortedCorrespond(a, b);
        UniformSame(a, b, day, guests);
      }
    } else {
      var x, y :| x in a && y in a && x.dateFrom == y.dateFrom && !(x.occupancy == y.occupancy && x.price == y.price);
      var i, j :| 0 <= i < |a| && a[i] == x && 0 <= j < |a| && a[j] == y;
      var guests := TellingParty(Offer(x.occupancy, x.price), Offer(y.occupancy, y.price));
      RaisedSeasonCounts(a, i, guests);
      RaisedSeasonCounts(a, j, guests);
      assert Resorted(a, WithOrder(a, i)) && Resorted(a, WithOrder(a, j));
    }
  }

  lemma ResortedCorrespond(a: seq<Season>, b: seq<Season>)
    requires Resorted(a, b)
    ensures SeasonsCorrespond(a, b)
  {
    forall z ensures Holds(a, z) <==> Holds(b, z) {
      if Holds(a, z) {
        var x :| x in a && SameButOrder(x, z);
        var i :| 0 <= i < |a| && a[i] == x;
        assert b[i] in b && SameButOrder(b[i], z);
      }
      if Holds(b, z) {
        var x :| x in b && SameButOrder(x, z);
        var i :| 0 <= i < |b| && b[i] == x;
        assert a[i] in a && SameButOrder(a[i], z);
      }
    }
  }

  lemma SinglePick(o: Offer, guests: nat)
    ensures PickByOccupancy([o], guests) ==
            if guests == 0 || o.occupancy == guests || o.occupancy == 0 then Some(o.price) else None
  {
    PickMeaning([o], guests);
    assert o in [o];
  }

  /** A party for which two different offers give different answers. */
  lemma TellingParty(o: Offer, u: Offer) returns (guests: nat)
    requires o != u
    ensures PickByOccupancy([o], guests) != PickByOccupancy([u], guests)
  {
    guests := if o.price != u.price then 0
    else if o.occupancy == 0 then u.occupancy + 1
    else if u.occupancy == 0 then o.occupancy + 1
    else o.occupancy;
    SinglePick(o, guests);
    SinglePick(u, guests);
  }

  function WitnessPlan(): Plan {
    Plan(7, "C", "Corporate", "BB", false, None, PERCENT, 0, true, true, Some(1), None, None, None, None, Some("18"))
  }

  /** Two overlapping seasons of one start; the raised one is charged on the first day. */
  function WitnessSeasons(raised: nat): seq<Season>
    requires raised < 2
  {
    WithOrder([Season(7, 1, 10, 20, 0, 280000, "RUB", 0), Season(7, 1, 10, 15, 0, 320000, "RUB", 0)], raised)
  }

  lemma WitnessPrice(raised: nat)
    requires raised < 2
    ensures PlainResolve(WitnessSeasons(raised), [], (7, 1), 10, 1) == Some(if raised == 0 then 280000 else 320000)
  {
    var flat := [Season(7, 1, 10, 20, 0, 280000, "RUB", 0), Season(7, 1, 10, 15, 0, 320000, "RUB", 0)];
    FilterAll(SeasonOf((7, 1)), WitnessSeasons(raised));
    RaisedSeasonCounts(flat, raised, 1);
    SinglePick(Offer(flat[raised].occupancy, flat[raised].price), 1);
  }

  lemma WitnessLines()
    ensures PlanPrices(PriceTables([], WitnessSeasons(0), []), 7) == PlanPrices(PriceTables([], WitnessSeasons(1), []), 7)
  {
    FilterAll(SeasonOfPlan(7), WitnessSeasons(0));
    FilterAll(SeasonOfPlan(7), WitnessSeasons(1));
    assert Map(SeasonLine(), WitnessSeasons(0)) == Map(SeasonLine(), WitnessSeasons(1));
  }

  /** Swapping two sort orders leaves the fingerprint as it was and changes what is charged. */
  lemma SortOrderWitness(c: Collation, docs: seq<ContractDoc>)
    ensures TariffFingerprint(c, docs, WitnessPlan(), PriceTables([], WitnessSeasons(0), []))
            == TariffFingerprint(c, docs, WitnessPlan(), PriceTables([], WitnessSeasons(1), []))
    ensures PlainResolve(WitnessSeasons(0), [], (7, 1), 10, 1) == Some(280000)
    ensures PlainResolve(WitnessSeasons(1), [], (7, 1), 10, 1) == Some(320000)
  {
    WitnessLines();
    WitnessPrice(0);
    WitnessPrice(1);
  }
}
