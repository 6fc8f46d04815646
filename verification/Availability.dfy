/**
 * Pricing a stay under every active plan: `Quote` says what the answer is,
 * `AvailabilityService.PriceByPlan` computes it night by night behind a cache.
 */
module Availability {
  import opened Options
  import opened Sequences
  import opened Tariffs
  import opened RateResolution

  /** What one hotel knows about prices; plans are listed in shelf order. */
  datatype HotelPrices = HotelPrices(plans: seq<Plan>, tables: PriceTables)

  datatype Label = Label(id: Id, code: string, name: string, mealPlan: string, partner: Option<Id>,
                         account: Option<Id>, customer: Option<Id>, guestKind: Option<GuestKind>, vatRate: Option<int>)

  datatype Night = Night(date: Day, price: Option<Cents>)

  datatype PlanPrice = PlanPrice(plan: Label, nights: nat, perNight: seq<Night>, total: Cents, nightlyFrom: Option<Cents>)

  function LabelOf(p: Plan): Label {
    Label(p.id, p.code, p.name, p.mealPlan, p.partner, p.account, p.customer, p.guestKind, p.vatRate)
  }

  // ── What the price of a night is ─────────────────────────────────────────

  /** The nights of a stay; a departure before the arrival lists the days backwards. */
  function StayDates(checkIn: Day, checkOut: Day): seq<Day> {
    if checkIn <= checkOut then seq(checkOut - checkIn, i => checkIn + i)
    else seq(checkIn - checkOut, i => checkIn - i)
  }

  function DayOf(plan: Id, room: Id, date: Day): DayRate -> bool {
    (r: DayRate) => r.plan == plan && r.room == room && r.date == date
  }

  function DayOffer(): DayRate -> Offer {
    (r: DayRate) => Offer(r.occupancy, r.price)
  }

  function Cheapest(rows: seq<Offer>): Cents
    requires rows != []
  {
    if |rows| == 1 then rows[0].price
    else
      var rest := Cheapest(rows[1..]);
      if rest < rows[0].price then rest else rows[0].price
  }

  /** A price set for the date itself; `strict` forbids prices for another number of guests. */
  function DailyPrice(rows: seq<Offer>, guests: nat, strict: bool): Option<Cents> {
    if rows == [] then None
    else
      var exact := OrElse(FirstFor(rows, guests), FirstFor(rows, 0));
      if guests > 0 && exact.Some? then exact
      else if guests > 0 && strict then None
      else Some(Cheapest(rows))
  }

  /** The base price counts only when positive. */
  function BaseFallback(base: Option<Cents>): Option<Cents> {
    if base.Some? && base.value > 0 then base else None
  }

  /** The price the plan itself gives for a night: its day row, else its baseline. */
  function OwnPrice(t: PriceTables, p: Plan, room: Id, date: Day, guests: nat): Option<Cents> {
    OrElse(DailyPrice(Map(DayOffer(), Filter(DayOf(p.id, room, date), t.days)), guests, p.partner.Some?),
           PlainResolve(t.seasons, t.standards, (p.id, room), date, guests))
  }

  /** A hotel's own plan falls back on the category base price; a partner's plan never does. */
  function NightPrice(t: PriceTables, p: Plan, room: Id, date: Day, guests: nat, base: Option<Cents>): Option<Cents> {
    OrElse(OwnPrice(t, p, room, date, guests), if p.partner.Some? then None else BaseFallback(base))
  }

  function NightsOf(t: PriceTables, p: Plan, room: Id, dates: seq<Day>, guests: nat, base: Option<Cents>): (r: seq<Night>)
    ensures |r| == |dates|
    ensures forall i :: 0 <= i < |dates| ==> r[i] == Night(dates[i], NightPrice(t, p, room, dates[i], guests, base))
  {
    seq(|dates|, i requires 0 <= i < |dates| => Night(dates[i], NightPrice(t, p, room, dates[i], guests, base)))
  }

  /** The sum of the nights, absent as soon as one night has no price. */
  function TotalOf(nights: seq<Night>): Option<Cents> {
    if nights == [] then Some(0)
    else
      var before, last := TotalOf(nights[..|nights|-1]), nights[|nights|-1];
      if before.Some? && last.price.Some? then Some(before.value + last.price.value) else None
  }

  function CheapestNight(nights: seq<Night>): Option<Cents> {
    if nights == [] then None
    else
      var before, last := CheapestNight(nights[..|nights|-1]), nights[|nights|-1];
      if last.price.Some? && (before.None? || last.price.value < before.value) then last.price else before
  }

  /** The offer of one plan, if there is a night and every night has a price. */
  function QuotePlan(t: PriceTables, p: Plan, room: Id, dates: seq<Day>, guests: nat, base: Option<Cents>): Option<PlanPrice> {
    var nights := NightsOf(t, p, room, dates, guests, base);
    var total := TotalOf(nights);
    if dates == [] || total.None? then None
    else Some(PlanPrice(LabelOf(p), |dates|, nights, total.value, CheapestNight(nights)))
  }

  function QuotePlans(t: PriceTables, plans: seq<Plan>, room: Id, dates: seq<Day>, guests: nat, base: Option<Cents>): seq<PlanPrice> {
    if plans == [] then []
    else
      var before := QuotePlans(t, plans[..|plans|-1], room, dates, guests, base);
      match QuotePlan(t, plans[|plans|-1], room, dates, guests, base)
      case None => before
      case Some(offer) => before + [offer]
  }

  function IsActive(): Plan -> bool {
    (p: Plan) => p.isActive
  }

  function DaysLoaded(room: Id, checkIn: Day, checkOut: Day): DayRate -> bool {
    (r: DayRate) => r.room == room && checkIn <= r.date <= checkOut
  }

  function SeasonsLoaded(room: Id, checkIn: Day, checkOut: Day): Season -> bool {
    (s: Season) => s.room == room && s.dateFrom <= checkOut && s.dateTo >= checkIn
  }

  function StandardsLoaded(room: Id): StandardRate -> bool {
    (s: StandardRate) => s.room == room
  }

  /** The rows the three queries of a quote return. */
  function Loaded(t: PriceTables, room: Id, checkIn: Day, checkOut: Day): PriceTables {
    PriceTables(Filter(DaysLoaded(room, checkIn, checkOut), t.days),
                Filter(SeasonsLoaded(room, checkIn, checkOut), t.seasons),
                Filter(StandardsLoaded(room), t.standards))
  }

  /** A stay without a night has no offers; otherwise the active plans are asked in turn. */
  function Quote(h: HotelPrices, room: Id, checkIn: Day, checkOut: Day, base: Option<Cents>, guests: nat): seq<PlanPrice> {
    if StayDates(checkIn, checkOut) == [] then []
    else QuotePlans(Loaded(h.tables, room, checkIn, checkOut), Filter(IsActive(), h.plans), room,
                    StayDates(checkIn, checkOut), guests, base)
  }

  // ── What an offer promises ───────────────────────────────────────────────

  function SumCents(prices: seq<Cents>): Cents {
    if prices == [] then 0 else prices[0] + SumCents(prices[1..])
  }

  function PriceOr0(): Night -> Cents {
    (n: Night) => if n.price.Some? then n.price.value else 0
  }

  lemma {:induction false} SumSnoc(prices: seq<Cents>, last: Cents)
    ensures SumCents(prices + [last]) == SumCents(prices) + last
  {
    if prices != [] {
      assert (prices + [last])[1..] == prices[1..] + [last];
      SumSnoc(prices[1..], last);
    }
  }

  lemma {:induction false} TotalIsSum(nights: seq<Night>)
    requires forall n :: n in nights ==> n.price.Some?
    ensures TotalOf(nights) == Some(SumCents(Map(PriceOr0(), nights)))
  {
    if nights != [] {
      var init, last := nights[..|nights|-1], nights[|nights|-1];
      assert forall n :: n in init ==> n in nights;
      TotalIsSum(init);
      SumSnoc(Map(PriceOr0(), init), PriceOr0()(last));
      assert Map(PriceOr0(), nights) == Map(PriceOr0(), init) + [PriceOr0()(last)];
    }
  }

  lemma {:induction false} CheapestMeaning(nights: seq<Night>)
    requires forall n :: n in nights ==> n.price.Some?
    ensures CheapestNight(nights).None? <==> nights == []
    ensures forall n :: n in nights ==> CheapestNight(nights).Some? && CheapestNight(nights).value <= n.price.value
  {
    if nights != [] {
      var init, last := nights[..|nights|-1], nights[|nights|-1];
      assert nights == init + [last];
      CheapestMeaning(init);
    }
  }

  /** The cheapest price is the price of one of the nights. */
  lemma {:induction false} CheapestIsCharged(nights: seq<Night>)
    requires CheapestNight(nights).Some?
    ensures exists n :: n in nights && n.price == CheapestNight(nights)
  {
    var init, last := nights[..|nights|-1], nights[|nights|-1];
    if CheapestNight(nights) == last.price {
      assert last in nights;
    } else {
      CheapestIsCharged(init);
      var n :| n in init && n.price == CheapestNight(init);
      assert n in nights;
    }
  }

  lemma {:induction false} SumAtLeast(prices: seq<Cents>, least: Cents)
    requires forall x :: x in prices ==> least <= x
    ensures |prices| * least <= SumCents(prices)
  {
    if prices != [] {
      assert prices[0] in prices && forall x :: x in prices[1..] ==> x in prices;
      SumAtLeast(prices[1..], least);
      assert |prices| * least == least + |prices[1..]| * least;
    }
  }

  lemma CheapestScales(nights: seq<Night>)
    requires nights != [] && forall n :: n in nights ==> n.price.Some?
    ensures CheapestNight(nights).Some?
    ensures |nights| * CheapestNight(nights).value <= SumCents(Map(PriceOr0(), nights))
  {
    CheapestMeaning(nights);
    var prices := Map(PriceOr0(), nights);
    forall x | x in prices ensures CheapestNight(nights).value <= x {
      var i :| 0 <= i < |prices| && prices[i] == x;
      assert nights[i] in nights;
    }
    SumAtLeast(prices, CheapestNight(nights).value);
  }

  /** A plan is offered exactly when there is a night and every night has a price, at the sum of the nights. */
  lemma OfferMeaning(t: PriceTables, p: Plan, room: Id, dates: seq<Day>, guests: nat, base: Option<Cents>)
    ensures var offer := QuotePlan(t, p, room, dates, guests, base);
            && (offer.Some? <==> dates != [] && forall d :: d in dates ==> NightPrice(t, p, room, d, guests, base).Some?)
            && (offer.Some? ==>
                  var o := offer.value;
                  && o.plan.id == p.id && o.plan.code == p.code && o.plan.name == p.name && o.plan.mealPlan == p.mealPlan
                  && o.plan.partner == p.partner && o.plan.account == p.account && o.plan.customer == p.customer
                  && o.plan.guestKind == p.guestKind && o.plan.vatRate == p.vatRate
                  && o.nights == |dates| == |o.perNight|
                  && (forall i :: 0 <= i < |dates| ==> o.perNight[i] == Night(dates[i], NightPrice(t, p, room, dates[i], guests, base)))
                  && o.total == SumCents(Map(PriceOr0(), o.perNight))
                  && o.nightlyFrom.Some? && o.nights * o.nightlyFrom.value <= o.total
                  && (exists n :: n in o.perNight && n.price == o.nightlyFrom)
                  && (forall n :: n in o.perNight ==> n.price.Some? && o.nightlyFrom.value <= n.price.value))
  {
    var nights := NightsOf(t, p, room, dates, guests, base);
    TotalMeaning(nights);
    if forall d :: d in dates ==> NightPrice(t, p, room, d, guests, base).Some? {
      forall n | n in nights ensures n.price.Some? {
        var i :| 0 <= i < |nights| && nights[i] == n;
        assert dates[i] in dates;
      }
      TotalIsSum(nights);
      if nights != [] {
        CheapestScales(nights);
        CheapestMeaning(nights);
        CheapestIsCharged(nights);
      }
    } else {
      var d :| d in dates && NightPrice(t, p, room, d, guests, base).None?;
      var i :| 0 <= i < |dates| && dates[i] == d;
      assert nights[i] in nights;
    }
  }

  lemma {:induction false} OffersOfPlans(t: PriceTables, plans: seq<Plan>, room: Id, dates: seq<Day>, guests: nat, base: Option<Cents>)
    ensures forall o :: o in QuotePlans(t, plans, room, dates, guests, base) <==>
                        exists p :: p in plans && QuotePlan(t, p, room, dates, guests, base) == Some(o)
  {
    if plans != [] {
      var init, last := plans[..|plans|-1], plans[|plans|-1];
      assert plans == init + [last];
      OffersOfPlans(t, init, room, dates, guests, base);
    }
  }

  /** Plans are offered in the order they are listed: one more plan adds its offer, if it makes one, at the end. */
  lemma OffersInOrder(t: PriceTables, a: seq<Plan>, p: Plan, room: Id, dates: seq<Day>, guests: nat, base: Option<Cents>)
    ensures QuotePlans(t, [], room, dates, guests, base) == []
    ensures QuotePlans(t, a + [p], room, dates, guests, base)
            == QuotePlans(t, a, room, dates, guests, base) + match QuotePlan(t, p, room, dates, guests, base)
                                                             case None => []
                                                             case Some(offer) => [offer]
  {
    assert (a + [p])[..|a|] == a;
  }

  /** The answer lists exactly the offers the active plans make over the whole price book; without a night it lists none. */
  lemma QuoteMembers(h: HotelPrices, room: Id, checkIn: Day, checkOut: Day, base: Option<Cents>, guests: nat)
    requires checkIn <= checkOut
    ensures forall o :: o in Quote(h, room, checkIn, checkOut, base, guests) <==>
                        exists p :: p in h.plans && p.isActive
                                    && QuotePlan(h.tables, p, room, StayDates(checkIn, checkOut), guests, base) == Some(o)
    ensures checkIn == checkOut ==> Quote(h, room, checkIn, checkOut, base, guests) == []
  {
    var plans, dates := Filter(IsActive(), h.plans), StayDates(checkIn, checkOut);
    StayDatesMeaning(checkIn, checkOut);
    QuoteLoaded(h.tables, plans, room, checkIn, checkOut, guests, base);
    OffersOfPlans(h.tables, plans, room, dates, guests, base);
    if dates != [] {
      assert dates[0] in dates;
    }
  }

  /** A row of the price book that speaks for this plan, category, date and party. */
  ghost predicate PricedByRow(t: PriceTables, p: Plan, room: Id, date: Day, guests: nat, price: Cents) {
    || (exists r :: r in t.days && r.plan == p.id && r.room == room && r.date == date
                    && (r.occupancy == guests || r.occupancy == 0) && r.price == price)
    || (exists r :: r in t.seasons && r.plan == p.id && r.room == room && Covers(r, date)
                    && (r.occupancy == guests || r.occupancy == 0) && r.price == price)
    || (exists r :: r in t.standards && r.plan == p.id && r.room == room
                    && (r.occupancy == guests || r.occupancy == 0) && r.price == price)
  }

  /** For a known party a partner's plan charges only prices set for exactly that party or for any number. */
  lemma PartnerNightByRow(t: PriceTables, p: Plan, room: Id, date: Day, guests: nat, base: Option<Cents>)
    requires p.partner.Some? && guests > 0
    ensures NightPrice(t, p, room, date, guests, base) == NightPrice(t, p, room, date, guests, None)
    ensures var price := NightPrice(t, p, room, date, guests, base);
            price.Some? ==> PricedByRow(t, p, room, date, guests, price.value)
  {
    var rows := Filter(DayOf(p.id, room, date), t.days);
    var daily := DailyPrice(Map(DayOffer(), rows), guests, true);
    if daily.Some? {
      FirstForMeaning(Map(DayOffer(), rows), guests);
      FirstForMeaning(Map(DayOffer(), rows), 0);
      var i :| 0 <= i < |rows| && rows[i].price == daily.value && (rows[i].occupancy == guests || rows[i].occupancy == 0);
      assert rows[i] in rows;
    } else {
      BaselineByRow(t, p, room, date, guests);
    }
  }

  lemma BaselineByRow(t: PriceTables, p: Plan, room: Id, date: Day, guests: nat)
    requires guests > 0
    ensures var price := PlainResolve(t.seasons, t.standards, (p.id, room), date, guests);
            price.Some? ==> PricedByRow(t, p, room, date, guests, price.value)
  {
    var mine := Filter(SeasonOf((p.id, room)), t.seasons);
    var price := SeasonPrice(mine, date, guests);
    TopMeaning(mine, date);
    if price.Some? {
      var window := Filter(WindowOf(Top(mine, date).value), mine);
      PickMeaning(Map(SeasonOffer(), window), guests);
      OfferMembers(window);
      var x :| x in window && x.price == price.value && (x.occupancy == guests || x.occupancy == 0);
      assert x in t.seasons && Covers(x, date);
    } else {
      var std := Filter(StandardOf((p.id, room)), t.standards);
      PickMeaning(Map(StandardOffer(), std), guests);
      StandardMembers(std);
    }
  }

  // ── Which row prices a night ─────────────────────────────────────────────

  /** A price set for the night itself. */
  predicate OfNight(r: DayRate, p: Plan, room: Id, date: Day) {
    r.plan == p.id && r.room == room && r.date == date
  }

  /**
   * `r` is the day row the party is charged by: for a known party the row for exactly that number, then the one
   * for any number; when there is neither (a hotel's own plan) or the party is unknown, the cheapest.
   */
  ghost predicate DayDecides(t: PriceTables, p: Plan, room: Id, date: Day, guests: nat, r: DayRate) {
    && r in t.days && OfNight(r, p, room, date)
    && (if guests > 0 && (r.occupancy == guests || r.occupancy == 0) then
          forall x :: x in t.days && OfNight(x, p, room, date) ==>
            Prefers(r.occupancy, x.occupancy, guests) && (x.occupancy == r.occupancy ==> x.price == r.price)
        else
          && (guests == 0 || p.partner.None?)
          && forall x :: x in t.days && OfNight(x, p, room, date) ==>
               r.price <= x.price && (guests > 0 ==> x.occupancy != guests && x.occupancy != 0))
  }

  /** No price is set for the night, or for a partner's plan only prices for other parties. */
  ghost predicate NoDayDecides(t: PriceTables, p: Plan, room: Id, date: Day, guests: nat) {
    forall x :: x in t.days && OfNight(x, p, room, date) ==>
      guests > 0 && p.partner.Some? && x.occupancy != guests && x.occupancy != 0
  }

  lemma {:induction false} CheapestOf(rows: seq<Offer>)
    requires rows != []
    ensures exists o :: o in rows && o.price == Cheapest(rows)
    ensures forall o :: o in rows ==> Cheapest(rows) <= o.price
  {
    assert rows[0] in rows;
    if |rows| > 1 {
      CheapestOf(rows[1..]);
    }
  }

  lemma DayOffers(t: PriceTables, p: Plan, room: Id, date: Day)
    ensures forall o :: o in Map(DayOffer(), Filter(DayOf(p.id, room, date), t.days))
                        <==> exists x :: x in t.days && OfNight(x, p, room, date) && o == Offer(x.occupancy, x.price)
  {
    var rows := Filter(DayOf(p.id, room, date), t.days);
    var offers := Map(DayOffer(), rows);
    forall o ensures o in offers <==> exists x :: x in t.days && OfNight(x, p, room, date) && o == Offer(x.occupancy, x.price) {
      if o in offers {
        var i :| 0 <= i < |offers| && offers[i] == o;
        assert rows[i] in rows;
      }
      if x :| x in t.days && OfNight(x, p, room, date) && o == Offer(x.occupancy, x.price) {
        assert x in rows;
        var i :| 0 <= i < |rows| && rows[i] == x;
        assert offers[i] == o;
      }
    }
  }

  /** A price set for the night itself comes before everything else. */
  lemma DayRowIsCharged(t: PriceTables, p: Plan, room: Id, date: Day, guests: nat, base: Option<Cents>, r: DayRate)
    requires DayDecides(t, p, room, date, guests, r)
    ensures NightPrice(t, p, room, date, guests, base) == Some(r.price)
  {
    var offers := Map(DayOffer(), Filter(DayOf(p.id, room, date), t.days));
    DayOffers(t, p, room, date);
    assert Offer(r.occupancy, r.price) in offers;
    FirstForMeaning(offers, guests);
    FirstForMeaning(offers, 0);
    CheapestOf(offers);
  }

  lemma DaysAreSilent(t: PriceTables, p: Plan, room: Id, date: Day, guests: nat)
    requires NoDayDecides(t, p, room, date, guests)
    ensures DailyPrice(Map(DayOffer(), Filter(DayOf(p.id, room, date), t.days)), guests, p.partner.Some?).None?
  {
    var offers := Map(DayOffer(), Filter(DayOf(p.id, room, date), t.days));
    DayOffers(t, p, room, date);
    FirstForMeaning(offers, guests);
    FirstForMeaning(offers, 0);
    if offers != [] {
      assert offers[0] in offers;
    }
  }

  /** Only then the season, only then the standard price, and last the category's base price, for the hotel's own plans. */
  lemma NightWithoutDayRow(t: PriceTables, p: Plan, room: Id, date: Day, guests: nat, base: Option<Cents>)
    requires NoDayDecides(t, p, room, date, guests)
    ensures forall s :: SeasonDecides(t.seasons, (p.id, room), date, guests, s) ==>
              NightPrice(t, p, room, date, guests, base) == Some(s.price)
    ensures NoSeasonDecides(t.seasons, (p.id, room), date, guests) ==>
              forall r :: StandardDecides(t.standards, (p.id, room), guests, r) ==> NightPrice(t, p, room, date, guests, base) == Some(r.price)
    ensures NoSeasonDecides(t.seasons, (p.id, room), date, guests) && NoStandardDecides(t.standards, (p.id, room), guests) ==>
              NightPrice(t, p, room, date, guests, base)
              == if p.partner.None? && base.Some? && base.value > 0 then base else None
  {
    DaysAreSilent(t, p, room, date, guests);
    var k := (p.id, room);
    forall s | SeasonDecides(t.seasons, k, date, guests, s) ensures NightPrice(t, p, room, date, guests, base) == Some(s.price) {
      SeasonIsCharged(t.seasons, t.standards, k, date, guests, s);
    }
    if NoSeasonDecides(t.seasons, k, date, guests) {
      forall r | StandardDecides(t.standards, k, guests, r) ensures NightPrice(t, p, room, date, guests, base) == Some(r.price) {
        StandardIsCharged(t.seasons, t.standards, k, date, guests, r);
      }
      if NoStandardDecides(t.standards, k, guests) {
        NothingIsCharged(t.seasons, t.standards, k, date, guests);
      }
    }
  }

  lemma StayDatesMeaning(checkIn: Day, checkOut: Day)
    requires checkIn <= checkOut
    ensures forall d :: d in StayDates(checkIn, checkOut) <==> checkIn <= d < checkOut
    ensures forall i, j :: 0 <= i < j < |StayDates(checkIn, checkOut)| ==> StayDates(checkIn, checkOut)[i] < StayDates(checkIn, checkOut)[j]
  {
    var dates := StayDates(checkIn, checkOut);
    forall d | checkIn <= d < checkOut ensures d in dates {
      assert dates[d - checkIn] == d;
    }
  }

  lemma OwnPriceLoaded(t: PriceTables, p: Plan, room: Id, checkIn: Day, checkOut: Day, date: Day, guests: nat)
    requires checkIn <= date <= checkOut
    ensures OwnPrice(Loaded(t, room, checkIn, checkOut), p, room, date, guests) == OwnPrice(t, p, room, date, guests)
  {
    var k := (p.id, room);
    var l := Loaded(t, room, checkIn, checkOut);
    FilterFilter(DaysLoaded(room, checkIn, checkOut), DayOf(p.id, room, date), t.days);
    FilterFilter(StandardsLoaded(room), StandardOf(k), t.standards);
    FilterSwap(SeasonOf(k), SeasonsLoaded(room, checkIn, checkOut), t.seasons);
    FilterSwap(SeasonOf(k), Touching(checkIn, checkOut), t.seasons);
    FilterAgree(SeasonsLoaded(room, checkIn, checkOut), Touching(checkIn, checkOut), Filter(SeasonOf(k), t.seasons));
    assert Filter(SeasonOf(k), l.seasons) == Filter(SeasonOf(k), Filter(Touching(checkIn, checkOut), t.seasons));
    TouchingSuffices(t.seasons, t.standards, k, checkIn, checkOut, date, guests);
  }

  lemma QuotePlanLoaded(t: PriceTables, p: Plan, room: Id, checkIn: Day, checkOut: Day, guests: nat, base: Option<Cents>)
    requires checkIn <= checkOut
    ensures QuotePlan(Loaded(t, room, checkIn, checkOut), p, room, StayDates(checkIn, checkOut), guests, base)
            == QuotePlan(t, p, room, StayDates(checkIn, checkOut), guests, base)
  {
    var dates, l := StayDates(checkIn, checkOut), Loaded(t, room, checkIn, checkOut);
    StayDatesMeaning(checkIn, checkOut);
    forall i | 0 <= i < |dates|
      ensures NightsOf(l, p, room, dates, guests, base)[i] == NightsOf(t, p, room, dates, guests, base)[i]
    {
      assert dates[i] in dates;
      OwnPriceLoaded(t, p, room, checkIn, checkOut, dates[i], guests);
    }
    assert NightsOf(l, p, room, dates, guests, base) == NightsOf(t, p, room, dates, guests, base);
  }

  /** A stay priced from the rows its queries load is priced from the whole price book. */
  lemma {:induction false} QuoteLoaded(t: PriceTables, plans: seq<Plan>, room: Id, checkIn: Day, checkOut: Day,
                                       guests: nat, base: Option<Cents>)
    requires checkIn <= checkOut
    ensures QuotePlans(Loaded(t, room, checkIn, checkOut), plans, room, StayDates(checkIn, checkOut), guests, base)
            == QuotePlans(t, plans, room, StayDates(checkIn, checkOut), guests, base)
  {
    if plans != [] {
      QuoteLoaded(t, plans[..|plans|-1], room, checkIn, checkOut, guests, base);
      QuotePlanLoaded(t, plans[|plans|-1], room, checkIn, checkOut, guests, base);
    }
  }

  // ── The service ──────────────────────────────────────────────────────────

  datatype CacheKey = CacheKey(tenant: Id, room: Id, checkIn: Day, checkOut: Day, guests: nat)

  /** Prices of every hotel, base prices of its categories, and the cached answers. */
  datatype PriceState = PriceState(hotels: map<Id, HotelPrices>, base: map<(Id, Id), Option<Cents>>,
                                   cache: map<CacheKey, seq<PlanPrice>>)

  function HotelOf(s: PriceState, tenant: Id): HotelPrices {
    if tenant in s.hotels then s.hotels[tenant] else HotelPrices([], PriceTables([], [], []))
  }

  function BaseOf(s: PriceState, tenant: Id, room: Id): Option<Cents> {
    if (tenant, room) in s.base then s.base[(tenant, room)] else None
  }

  /** What an uncached computation answers. */
  function Fresh(s: PriceState, k: CacheKey): seq<PlanPrice> {
    Quote(HotelOf(s, k.tenant), k.room, k.checkIn, k.checkOut, BaseOf(s, k.tenant, k.room), k.guests)
  }

  class AvailabilityService {
    var hotels: map<Id, HotelPrices>
    var base: map<(Id, Id), Option<Cents>>
    var cache: map<CacheKey, seq<PlanPrice>>

    constructor ()
      ensures View() == PriceState(map[], map[], map[])
    {
      hotels, base, cache := map[], map[], map[];
    }

    function View(): PriceState
      reads this
    {
      PriceState(hotels, base, cache)
    }

    /** Answers from the cache, else computes, stores and answers. */
    method PriceByPlan(tenant: Id, room: Id, checkIn: Day, checkOut: Day, guests: nat) returns (r: seq<PlanPrice>)
      modifies this`cache
      ensures View() == Apply(old(View()), Asked(CacheKey(tenant, room, checkIn, checkOut, guests)))
      ensures r == cache[CacheKey(tenant, room, checkIn, checkOut, guests)]
    {
      var key := CacheKey(tenant, room, checkIn, checkOut, guests);
      if key in cache {
        return cache[key];
      }
      var h := HotelOf(View(), tenant);
      r := ComputeQuote(h, room, checkIn, checkOut, BaseOf(View(), tenant, room), guests);
      cache := cache[key := r];
    }

    /** Cached answers run out on their own. */
    method Expire(keys: set<CacheKey>)
      modifies this`cache
      ensures View() == Apply(old(View()), Expired(keys))
    {
      cache := cache - keys;
    }

    /** A change of a hotel's plans or prices drops every cached plan price of that hotel. */
    method EditPrices(tenant: Id, h: HotelPrices)
      modifies this`hotels, this`cache
      ensures View() == Apply(old(View()), Edited(tenant, h))
    {
      hotels := hotels[tenant := h];
      var keys := cache.Keys;
      ghost var before := cache;
      while keys != {}
        invariant keys <= before.Keys && hotels == old(hotels)[tenant := h]
        invariant cache == map k | k in before && !(k.tenant == tenant && k !in keys) :: before[k]
        decreases keys
      {
        var k :| k in keys;
        if k.tenant == tenant {
          cache := cache - {k};
        }
        keys := keys - {k};
      }
      assert cache == Dropped(before, tenant);
    }

    /** A change of a category's base price leaves the cache as it is. */
    method SetBasePrice(tenant: Id, room: Id, price: Option<Cents>)
      modifies this`base
      ensures View() == Apply(old(View()), BaseChanged(tenant, room, price))
    {
      base := base[(tenant, room) := price];
    }
  }

  /** The uncached computation, plan by plan. */
  method ComputeQuote(h: HotelPrices, room: Id, checkIn: Day, checkOut: Day, base: Option<Cents>, guests: nat)
    returns (priced: seq<PlanPrice>)
    ensures priced == Quote(h, room, checkIn, checkOut, base, guests)
  {
    var stayDates := StayDates(checkIn, checkOut);
    if stayDates == [] {
      return [];
    }
    var plans := Filter(IsActive(), h.plans);
    var t := Loaded(h.tables, room, checkIn, checkOut);
    var baseline := new BaselineResolver(t.seasons, t.standards);
    var dailyByPlanDay := GroupDays(t.days, room);
    priced := PricePlans(t, baseline, dailyByPlanDay, plans, room, stayDates, guests, base);
  }

  /** Every plan on sale, in turn. */
  method PricePlans(ghost t: PriceTables, baseline: BaselineResolver, dailyByPlanDay: map<(Id, Day), seq<Offer>>,
                    plans: seq<Plan>, room: Id, stayDates: seq<Day>, guests: nat, base: Option<Cents>)
    returns (priced: seq<PlanPrice>)
    requires baseline.Valid() && baseline.seasons == t.seasons && baseline.standards == t.standards
    requires GroupsDays(dailyByPlanDay, t.days, room) && stayDates != []
    ensures priced == QuotePlans(t, plans, room, stayDates, guests, base)
  {
    priced := [];
    for i := 0 to |plans|
      invariant priced == QuotePlans(t, plans[..i], room, stayDates, guests, base)
    {
      var offer := PricePlan(t, baseline, dailyByPlanDay, plans[i], room, stayDates, guests, base);
      assert plans[..i+1][..i] == plans[..i];
      if offer.Some? {
        priced := priced + [offer.value];
      }
    }
    assert plans[..|plans|] == plans;
  }

  /** The day row, else the season or standard price, else (for the hotel's own plans) the category's base price. */
  method PriceOneNight(ghost t: PriceTables, baseline: BaselineResolver, dailyByPlanDay: map<(Id, Day), seq<Offer>>,
                       p: Plan, room: Id, day: Day, guests: nat, base: Option<Cents>)
    returns (eff: Option<Cents>)
    requires baseline.Valid() && baseline.seasons == t.seasons && baseline.standards == t.standards
    requires GroupsDays(dailyByPlanDay, t.days, room)
    ensures eff == NightPrice(t, p, room, day, guests, base)
  {
    DailyGrouped(dailyByPlanDay, t.days, room, p.id, day);
    eff := DailyPrice(OffersAt(dailyByPlanDay, p.id, day), guests, p.partner.Some?);
    if eff.None? {
      eff := baseline.Resolve(p.id, room, day, guests);
    }
    if eff.None? && p.partner.None? {
      eff := BaseFallback(base);
    }
  }

  lemma AddNight(nights: seq<Night>, n: Night)
    ensures TotalOf(nights + [n]) ==
            if TotalOf(nights).Some? && n.price.Some? then Some(TotalOf(nights).value + n.price.value) else None
    ensures CheapestNight(nights + [n]) ==
            if n.price.Some? && (CheapestNight(nights).None? || n.price.value < CheapestNight(nights).value) then n.price
            else CheapestNight(nights)
  {
    assert (nights + [n])[..|nights|] == nights;
  }

  /** One plan, night by night: its sum, lost at the first night without a price, and its cheapest night. */
  method PriceNights(ghost t: PriceTables, baseline: BaselineResolver, dailyByPlanDay: map<(Id, Day), seq<Offer>>,
                     p: Plan, room: Id, stayDates: seq<Day>, guests: nat, base: Option<Cents>)
    returns (perNight: seq<Night>, total: Option<Cents>, cheapest: Option<Cents>)
    requires baseline.Valid() && baseline.seasons == t.seasons && baseline.standards == t.standards
    requires GroupsDays(dailyByPlanDay, t.days, room)
    ensures perNight == NightsOf(t, p, room, stayDates, guests, base)
    ensures total == TotalOf(perNight) && cheapest == CheapestNight(perNight)
  {
    perNight, total, cheapest := [], Some(0), None;
    ghost var nights := NightsOf(t, p, room, stayDates, guests, base);
    for j := 0 to |stayDates|
      invariant perNight == nights[..j]
      invariant total == TotalOf(nights[..j]) && cheapest == CheapestNight(nights[..j])
    {
      var day := stayDates[j];
      var eff := PriceOneNight(t, baseline, dailyByPlanDay, p, room, day, guests, base);
      assert nights[j] == Night(day, eff) && nights[..j+1] == nights[..j] + [nights[j]];
      total, cheapest := Accumulate(nights[..j], total, cheapest, Night(day, eff));
      perNight := perNight + [Night(day, eff)];
    }
    assert nights[..|stayDates|] == nights;
  }

  /** Takes one more night into the sum and the cheapest price. */
  method Accumulate(ghost nights: seq<Night>, total: Option<Cents>, cheapest: Option<Cents>, night: Night)
    returns (newTotal: Option<Cents>, newCheapest: Option<Cents>)
    requires total == TotalOf(nights) && cheapest == CheapestNight(nights)
    ensures newTotal == TotalOf(nights + [night]) && newCheapest == CheapestNight(nights + [night])
  {
    AddNight(nights, night);
    newTotal, newCheapest := total, cheapest;
    if night.price.None? {
      newTotal := None; // one night without a price leaves no sum
    } else {
      if newTotal.Some? {
        newTotal := Some(newTotal.value + night.price.value);
      }
      if newCheapest.None? || night.price.value < newCheapest.value {
        newCheapest := night.price;
      }
    }
  }

  method PricePlan(ghost t: PriceTables, baseline: BaselineResolver, dailyByPlanDay: map<(Id, Day), seq<Offer>>,
                   p: Plan, room: Id, stayDates: seq<Day>, guests: nat, base: Option<Cents>)
    returns (offer: Option<PlanPrice>)
    requires baseline.Valid() && baseline.seasons == t.seasons && baseline.standards == t.standards
    requires GroupsDays(dailyByPlanDay, t.days, room) && stayDates != []
    ensures offer == QuotePlan(t, p, room, stayDates, guests, base)
  {
    var perNight, total, cheapest := PriceNights(t, baseline, dailyByPlanDay, p, room, stayDates, guests, base);
    offer := if total.None? then None else Some(PlanPrice(LabelOf(p), |stayDates|, perNight, total.value, cheapest));
  }

  function OffersAt(m: map<(Id, Day), seq<Offer>>, plan: Id, date: Day): seq<Offer> {
    if (plan, date) in m then m[(plan, date)] else []
  }

  ghost predicate GroupsDays(m: map<(Id, Day), seq<Offer>>, days: seq<DayRate>, room: Id) {
    forall plan: Id, date: Day :: OffersAt(m, plan, date) == Map(DayOffer(), Filter(DayOf(plan, room, date), days))
  }

  lemma DailyGrouped(m: map<(Id, Day), seq<Offer>>, days: seq<DayRate>, room: Id, plan: Id, date: Day)
    requires GroupsDays(m, days, room)
    ensures OffersAt(m, plan, date) == Map(DayOffer(), Filter(DayOf(plan, room, date), days))
  {
  }

  function AddDay(m: map<(Id, Day), seq<Offer>>, r: DayRate): map<(Id, Day), seq<Offer>> {
    m[(r.plan, r.date) := OffersAt(m, r.plan, r.date) + [DayOffer()(r)]]
  }

  lemma DayAdded(m: map<(Id, Day), seq<Offer>>, days: seq<DayRate>, room: Id, r: DayRate)
    requires GroupsDays(m, days, room) && r.room == room
    ensures GroupsDays(AddDay(m, r), days + [r], room)
  {
    forall plan: Id, date: Day
      ensures OffersAt(AddDay(m, r), plan, date) == Map(DayOffer(), Filter(DayOf(plan, room, date), days + [r]))
    {
      FilterConcat(DayOf(plan, room, date), days, [r]);
      MapConcat(DayOffer(), Filter(DayOf(plan, room, date), days), Filter(DayOf(plan, room, date), [r]));
      DailyGrouped(m, days, room, plan, date);
    }
  }

  method GroupDays(days: seq<DayRate>, room: Id) returns (m: map<(Id, Day), seq<Offer>>)
    requires forall r :: r in days ==> r.room == room
    ensures GroupsDays(m, days, room)
  {
    m := map[];
    for i := 0 to |days|
      invariant GroupsDays(m, days[..i], room)
    {
      DayAdded(m, days[..i], room, days[i]);
      m := AddDay(m, days[i]);
      assert days[..i+1] == days[..i] + [days[i]];
    }
    assert days[..|days|] == days;
  }

  // ── Runs of the cache ────────────────────────────────────────────────────

  datatype Event =
    | Asked(key: CacheKey)
    | Expired(keys: set<CacheKey>)
    | Edited(tenant: Id, h: HotelPrices)
    | BaseChanged(hotel: Id, room: Id, price: Option<Cents>)

  function Dropped(cache: map<CacheKey, seq<PlanPrice>>, tenant: Id): map<CacheKey, seq<PlanPrice>> {
    map k | k in cache && k.tenant != tenant :: cache[k]
  }

  function Apply(s: PriceState, e: Event): PriceState {
    match e
    case Asked(key) => if key in s.cache then s else s.(cache := s.cache[key := Fresh(s, key)])
    case Expired(keys) => s.(cache := s.cache - keys)
    case Edited(tenant, h) => s.(hotels := s.hotels[tenant := h], cache := Dropped(s.cache, tenant))
    case BaseChanged(hotel, room, price) => s.(base := s.base[(hotel, room) := price])
  }

  function RunCache(s: PriceState, events: seq<Event>): PriceState {
    if events == [] then s else Apply(RunCache(s, events[..|events|-1]), events[|events|-1])
  }

  /** Every cached answer is what a fresh computation would answer now. */
  ghost predicate Coherent(s: PriceState) {
    forall k :: k in s.cache ==> s.cache[k] == Fresh(s, k)
  }

  /** A night of the stay that some own plan of the hotel prices by the base price. */
  ghost predicate FallsBack(h: HotelPrices, room: Id, checkIn: Day, checkOut: Day, guests: nat) {
    exists p, d :: p in h.plans && p.isActive && p.partner.None? && d in StayDates(checkIn, checkOut)
                   && OwnPrice(Loaded(h.tables, room, checkIn, checkOut), p, room, d, guests).None?
  }

  /** A base price change is harmless to the cached answers that never used the base price. */
  ghost predicate SafeEvent(s: PriceState, e: Event) {
    e.BaseChanged? && BaseFallback(e.price) != BaseFallback(BaseOf(s, e.hotel, e.room)) ==>
      forall k :: k in s.cache && k.tenant == e.hotel && k.room == e.room ==>
        !FallsBack(HotelOf(s, k.tenant), k.room, k.checkIn, k.checkOut, k.guests)
  }

  /** A stored answer goes only when it runs out or its own hotel's prices are edited; a question leaves its answer stored, computed unless it was there. */
  lemma AnswersStay(s: PriceState, e: Event, k: CacheKey)
    ensures var after := Apply(s, e);
            && (k in s.cache ==>
                  (k in after.cache <==> !(e.Expired? && k in e.keys) && !(e.Edited? && e.tenant == k.tenant)))
            && (k in s.cache && k in after.cache ==> after.cache[k] == s.cache[k])
            && (k !in s.cache ==> (k in after.cache <==> e == Asked(k)))
            && (k !in s.cache && k in after.cache ==> after.cache[k] == Fresh(s, k))
  {
  }

  /** An event keeps the cache right exactly when it is not a base price change under answers that used it. */
  lemma CacheStep(s: PriceState, e: Event)
    requires Coherent(s)
    ensures Coherent(Apply(s, e)) <==> SafeEvent(s, e)
  {
    if e.BaseChanged? {
      forall k | k in s.cache ensures s.cache[k] == Fresh(Apply(s, e), k) <==> SafeFor(s, e, k) {
        BaseChangeAt(s, e, k);
      }
      assert Apply(s, e).cache == s.cache;
      assert SafeEvent(s, e) <==> forall k :: k in s.cache ==> SafeFor(s, e, k);
    } else {
      OtherEventAt(s, e);
    }
  }

  /** An own plan without prices is quoted at the base price; the base price changes; the cached answer stands. */
  lemma StaleBaseWitness(p: Plan, key: CacheKey)
    requires p.isActive && p.partner.None? && key.checkIn < key.checkOut
    ensures var start := PriceState(map[key.tenant := HotelPrices([p], PriceTables([], [], []))], map[(key.tenant, key.room) := Some(100)], map[]);
            var asked := RunCache(start, [Asked(key)]);
            && Coherent(asked)
            && !Coherent(RunCache(start, [Asked(key), BaseChanged(key.tenant, key.room, Some(200))]))
  {
    var start := PriceState(map[key.tenant := HotelPrices([p], PriceTables([], [], []))], map[(key.tenant, key.room) := Some(100)], map[]);
    var changed := BaseChanged(key.tenant, key.room, Some(200));
    assert [Asked(key)][..0] == [] && [Asked(key), changed][..1] == [Asked(key)];
    var asked := RunCache(start, [Asked(key)]);
    assert RunCache(start, []) == start && asked == Apply(start, Asked(key));
    assert RunCache(start, [Asked(key), changed]) == Apply(asked, changed);
    CacheStep(start, Asked(key));
    CacheStep(asked, changed);
    NothingPriced(p, key);
  }

  lemma NothingPriced(p: Plan, key: CacheKey)
    requires p.isActive && p.partner.None? && key.checkIn < key.checkOut
    ensures FallsBack(HotelPrices([p], PriceTables([], [], [])), key.room, key.checkIn, key.checkOut, key.guests)
  {
    StayDatesMeaning(key.checkIn, key.checkOut);
    var t := Loaded(PriceTables([], [], []), key.room, key.checkIn, key.checkOut);
    assert t == PriceTables([], [], []);
    assert OwnPrice(t, p, key.room, key.checkIn, key.guests).None?;
    assert p in [p] && key.checkIn in StayDates(key.checkIn, key.checkOut);
  }

  ghost predicate SafeFor(s: PriceState, e: Event, k: CacheKey)
    requires e.BaseChanged?
  {
    k.tenant == e.hotel && k.room == e.room && BaseFallback(e.price) != BaseFallback(BaseOf(s, e.hotel, e.room)) ==>
      !FallsBack(HotelOf(s, k.tenant), k.room, k.checkIn, k.checkOut, k.guests)
  }

  lemma BaseChangeAt(s: PriceState, e: Event, k: CacheKey)
    requires Coherent(s) && e.BaseChanged? && k in s.cache
    ensures s.cache[k] == Fresh(Apply(s, e), k) <==> SafeFor(s, e, k)
  {
    var s' := Apply(s, e);
    assert HotelOf(s', k.tenant) == HotelOf(s, k.tenant);
    BaseMatters(HotelOf(s, k.tenant), k.room, k.checkIn, k.checkOut, BaseOf(s, k.tenant, k.room),
                BaseOf(s', k.tenant, k.room), k.guests);
  }

  lemma OtherEventAt(s: PriceState, e: Event)
    requires Coherent(s) && !e.BaseChanged?
    ensures Coherent(Apply(s, e))
  {
    var s' := Apply(s, e);
    forall k | k in s'.cache ensures s'.cache[k] == Fresh(s', k) {
      if !(e.Asked? && k == e.key) {
        UnseenByKey(s, e, k);
      }
    }
  }

  /** What an answer is computed from does not change while the answer stays cached. */
  lemma UnseenByKey(s: PriceState, e: Event, k: CacheKey)
    requires !e.BaseChanged? && k in s.cache && k in Apply(s, e).cache
    ensures Apply(s, e).cache[k] == s.cache[k] && Fresh(Apply(s, e), k) == Fresh(s, k)
  {
    assert HotelOf(Apply(s, e), k.tenant) == HotelOf(s, k.tenant);
    assert BaseOf(Apply(s, e), k.tenant, k.room) == BaseOf(s, k.tenant, k.room);
  }

  ghost predicate SafeRun(s: PriceState, events: seq<Event>) {
    forall i :: 0 <= i < |events| ==> SafeEvent(RunCache(s, events[..i]), events[i])
  }

  /** Over every run, a cached answer equals a fresh one. */
  lemma {:induction false} CacheCoherence(s: PriceState, events: seq<Event>)
    requires Coherent(s) && SafeRun(s, events)
    ensures Coherent(RunCache(s, events))
  {
    if events != [] {
      var init, last := events[..|events|-1], events[|events|-1];
      forall i | 0 <= i < |init| ensures SafeEvent(RunCache(s, init[..i]), init[i]) {
        assert init[..i] == events[..i];
      }
      CacheCoherence(s, init);
      CacheStep(RunCache(s, init), last);
    }
  }

  /** Two base prices give the same quote exactly when they count the same or the quote never falls back. */
  lemma BaseMatters(h: HotelPrices, room: Id, checkIn: Day, checkOut: Day, b: Option<Cents>, c: Option<Cents>, guests: nat)
    ensures Quote(h, room, checkIn, checkOut, b, guests) == Quote(h, room, checkIn, checkOut, c, guests)
            <==> (BaseFallback(b) == BaseFallback(c) || !FallsBack(h, room, checkIn, checkOut, guests))
  {
    var t := Loaded(h.tables, room, checkIn, checkOut);
    var plans := Filter(IsActive(), h.plans);
    var dates := StayDates(checkIn, checkOut);
    if BaseFallback(b) == BaseFallback(c) || forall p :: p in plans ==> !PlanFallsBack(t, p, room, dates, guests) {
      BaseIgnored(t, plans, room, dates, b, c, guests);
    } else if BaseFallback(b).None? {
      BaseAddsPlans(t, plans, room, dates, b, c, guests);
    } else if BaseFallback(c).None? {
      BaseAddsPlans(t, plans, room, dates, c, b, guests);
    } else {
      BaseShows(t, plans, room, dates, b, c, guests);
    }
  }

  ghost predicate PlanFallsBack(t: PriceTables, p: Plan, room: Id, dates: seq<Day>, guests: nat) {
    p.partner.None? && exists d :: d in dates && OwnPrice(t, p, room, d, guests).None?
  }

  lemma {:induction false} TotalMeaning(nights: seq<Night>)
    ensures TotalOf(nights).Some? <==> forall n :: n in nights ==> n.price.Some?
  {
    if nights != [] {
      TotalMeaning(nights[..|nights|-1]);
      assert nights == nights[..|nights|-1] + [nights[|nights|-1]];
    }
  }

  lemma PlanBaseIgnored(t: PriceTables, p: Plan, room: Id, dates: seq<Day>, b: Option<Cents>, c: Option<Cents>, guests: nat)
    requires BaseFallback(b) == BaseFallback(c) || !PlanFallsBack(t, p, room, dates, guests)
    ensures QuotePlan(t, p, room, dates, guests, b) == QuotePlan(t, p, room, dates, guests, c)
  {
    var nb, nc := NightsOf(t, p, room, dates, guests, b), NightsOf(t, p, room, dates, guests, c);
    forall i | 0 <= i < |dates| ensures nb[i] == nc[i] {
      assert dates[i] in dates;
    }
    assert nb == nc;
  }

  /** A plan that falls back is offered exactly when the base price counts, and then shows it. */
  lemma PlanBaseShows(t: PriceTables, p: Plan, room: Id, dates: seq<Day>, b: Option<Cents>, guests: nat)
    requires PlanFallsBack(t, p, room, dates, guests)
    ensures QuotePlan(t, p, room, dates, guests, b).Some? <==> BaseFallback(b).Some?
    ensures exists i {:trigger dates[i]} :: 0 <= i < |dates| && OwnPrice(t, p, room, dates[i], guests).None?
              && NightsOf(t, p, room, dates, guests, b)[i].price == BaseFallback(b)
  {
    var nights := NightsOf(t, p, room, dates, guests, b);
    TotalMeaning(nights);
    var d :| d in dates && OwnPrice(t, p, room, d, guests).None?;
    var i :| 0 <= i < |dates| && dates[i] == d;
    assert nights[i] in nights;
  }

  lemma PlanBaseDiffers(t: PriceTables, p: Plan, room: Id, dates: seq<Day>, b: Option<Cents>, c: Option<Cents>, guests: nat)
    requires BaseFallback(b).Some? && BaseFallback(c).Some?
    ensures QuotePlan(t, p, room, dates, guests, b).Some? == QuotePlan(t, p, room, dates, guests, c).Some?
    ensures BaseFallback(b) != BaseFallback(c) && PlanFallsBack(t, p, room, dates, guests) ==>
              QuotePlan(t, p, room, dates, guests, b) != QuotePlan(t, p, room, dates, guests, c)
  {
    var nb, nc := NightsOf(t, p, room, dates, guests, b), NightsOf(t, p, room, dates, guests, c);
    if PlanFallsBack(t, p, room, dates, guests) {
      PlanBaseShows(t, p, room, dates, b, guests);
      PlanBaseShows(t, p, room, dates, c, guests);
      var i :| 0 <= i < |dates| && OwnPrice(t, p, room, dates[i], guests).None? && nb[i].price == BaseFallback(b);
      assert nc[i].price == BaseFallback(c);
    } else {
      PlanBaseIgnored(t, p, room, dates, b, c, guests);
    }
  }

  lemma {:induction false} BaseIgnored(t: PriceTables, plans: seq<Plan>, room: Id, dates: seq<Day>,
                                       b: Option<Cents>, c: Option<Cents>, guests: nat)
    requires BaseFallback(b) == BaseFallback(c) || forall p :: p in plans ==> !PlanFallsBack(t, p, room, dates, guests)
    ensures QuotePlans(t, plans, room, dates, guests, b) == QuotePlans(t, plans, room, dates, guests, c)
  {
    if plans != [] {
      var init, last := plans[..|plans|-1], plans[|plans|-1];
      assert last in plans && forall p :: p in init ==> p in plans;
      BaseIgnored(t, init, room, dates, b, c, guests);
      PlanBaseIgnored(t, last, room, dates, b, c, guests);
    }
  }

  /** Without a base price the plans that need one disappear from the answer. */
  lemma {:induction false} BaseAddsPlans(t: PriceTables, plans: seq<Plan>, room: Id, dates: seq<Day>,
                                         b: Option<Cents>, c: Option<Cents>, guests: nat)
    requires BaseFallback(b).None? && BaseFallback(c).Some?
    ensures |QuotePlans(t, plans, room, dates, guests, b)| <= |QuotePlans(t, plans, room, dates, guests, c)|
    ensures (exists p :: p in plans && PlanFallsBack(t, p, room, dates, guests)) ==>
              |QuotePlans(t, plans, room, dates, guests, b)| < |QuotePlans(t, plans, room, dates, guests, c)|
  {
    if plans != [] {
      var init, last := plans[..|plans|-1], plans[|plans|-1];
      assert plans == init + [last];
      BaseAddsPlans(t, init, room, dates, b, c, guests);
      if PlanFallsBack(t, last, room, dates, guests) {
        PlanBaseShows(t, last, room, dates, b, guests);
        PlanBaseShows(t, last, room, dates, c, guests);
      } else {
        PlanBaseIgnored(t, last, room, dates, b, c, guests);
      }
    }
  }

  lemma {:induction false} BaseShows(t: PriceTables, plans: seq<Plan>, room: Id, dates: seq<Day>,
                                     b: Option<Cents>, c: Option<Cents>, guests: nat)
    requires BaseFallback(b).Some? && BaseFallback(c).Some? && BaseFallback(b) != BaseFallback(c)
    ensures |QuotePlans(t, plans, room, dates, guests, b)| == |QuotePlans(t, plans, room, dates, guests, c)|
    ensures (exists p :: p in plans && PlanFallsBack(t, p, room, dates, guests)) ==>
              QuotePlans(t, plans, room, dates, guests, b) != QuotePlans(t, plans, room, dates, guests, c)
  {
    if plans != [] {
      var init, last := plans[..|plans|-1], plans[|plans|-1];
      assert plans == init + [last];
      BaseShows(t, init, room, dates, b, c, guests);
      PlanBaseDiffers(t, last, room, dates, b, c, guests);
      var qb, qc := QuotePlans(t, init, room, dates, guests, b), QuotePlans(t, init, room, dates, guests, c);
      var ob, oc := QuotePlan(t, last, room, dates, guests, b), QuotePlan(t, last, room, dates, guests, c);
      if ob.Some? {
        assert (qb + [ob.value])[..|qb|] == qb && (qc + [oc.value])[..|qc|] == qc;
        assert (qb + [ob.value])[|qb|] == ob.value && (qc + [oc.value])[|qc|] == oc.value;
      }
    }
  }
}
