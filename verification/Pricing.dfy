/**
 * Quoting a stay under a plan that may inherit its prices: find the nearest
 * plan up the chain with a price for the night, then bring the price down
 * through every modifier.
 */
module Pricing {
  import opened Options
  import opened Sequences
  import opened Tariffs
  import opened RateResolution
  import opened Availability

  const MAX_PARENTS: nat := 5

  // ── Modifiers ────────────────────────────────────────────────────────────

  /** The nearest whole number to `n / d`, halves away from zero. */
  function RoundHalfUp(n: int, d: int): int
    requires d > 0
  {
    if n >= 0 then (2 * n + d) / (2 * d) else -((2 * (-n) + d) / (2 * d))
  }

  /** A plan's modifier on its parent's price: percentages carry two decimals, so 100 % is 10000. */
  function ApplyModifier(base: Cents, p: Plan): Cents {
    if p.modifierValue == 0 then base
    else
      var result := if p.modifierType == PERCENT then RoundHalfUp(base * (10000 + p.modifierValue), 10000) else base + p.modifierValue;
      if result < 0 then 0 else result
  }

  /** The price after every modifier of the chain, the last plan's first. */
  function ThroughChain(mods: seq<Plan>, base: Cents): Cents {
    if mods == [] then base else ApplyModifier(ThroughChain(mods[1..], base), mods[0])
  }

  /** Rounding moves a number by at most half, keeps the sign and never reorders two numbers. */
  lemma RoundNear(n: int, d: int)
    requires d > 0
    ensures -d <= 2 * (RoundHalfUp(n, d) * d - n) <= d
    ensures n >= 0 ==> RoundHalfUp(n, d) >= 0
  {
    var m := if n >= 0 then n else -n;
    var q := (2 * m + d) / (2 * d);
    assert 2 * m + d == q * (2 * d) + (2 * m + d) % (2 * d);
    assert q * (2 * d) == 2 * (q * d);
    assert -(q * d) == (-q) * d;
  }

  lemma NearMonotone(x: int, y: int, n: int, m: int, d: int)
    requires d > 0 && n < m
    requires -d <= 2 * (x * d - n) <= d && -d <= 2 * (y * d - m) <= d
    ensures x <= y
  {
    if x > y {
      TimesApart(x, y, d);
    }
  }

  lemma {:induction false} TimesApart(x: int, y: int, d: int)
    requires x > y && d > 0
    ensures x * d >= y * d + d
    decreases x - y
  {
    assert x * d == (x - 1) * d + d;
    if x - 1 > y {
      TimesApart(x - 1, y, d);
    }
  }

  lemma RoundMonotone(n: int, m: int, d: int)
    requires d > 0 && n <= m
    ensures RoundHalfUp(n, d) <= RoundHalfUp(m, d)
  {
    if n < m {
      RoundNear(n, d);
      RoundNear(m, d);
      NearMonotone(RoundHalfUp(n, d), RoundHalfUp(m, d), n, m, d);
    }
  }

  lemma ModifierMonotone(a: Cents, b: Cents, p: Plan)
    requires 0 <= a <= b
    ensures 0 <= ApplyModifier(a, p) <= ApplyModifier(b, p)
  {
    var f := 10000 + p.modifierValue;
    if f >= 0 {
      assert a * f <= b * f;
      RoundMonotone(a * f, b * f, 10000);
    } else {
      assert a * f <= 0 && b * f <= 0;
      RoundMonotone(a * f, 0, 10000);
      RoundMonotone(b * f, 0, 10000);
    }
  }

  /** However the modifiers are set, a dearer base is never cheaper at the end, and no price is negative. */
  lemma {:induction false} ChainMonotone(mods: seq<Plan>, a: Cents, b: Cents)
    requires 0 <= a <= b
    ensures 0 <= ThroughChain(mods, a) <= ThroughChain(mods, b)
  {
    if mods != [] {
      ChainMonotone(mods[1..], a, b);
      ModifierMonotone(ThroughChain(mods[1..], a), ThroughChain(mods[1..], b), mods[0]);
    }
  }

  // ── The same chain without rounding ──────────────────────────────────────

  function Clamp(x: real): real {
    if x < 0.0 then 0.0 else x
  }

  function Factor(p: Plan): real {
    (10000 + p.modifierValue) as real / 10000.0
  }

  function ExactModifier(base: real, p: Plan): real {
    if p.modifierValue == 0 then base
    else Clamp(if p.modifierType == PERCENT then base * Factor(p) else base + p.modifierValue as real)
  }

  function ExactChain(mods: seq<Plan>, base: real): real {
    if mods == [] then base else ExactModifier(ExactChain(mods[1..], base), mods[0])
  }

  function Distance(x: real, y: real): real {
    if x < y then y - x else x - y
  }

  lemma RoundedStep(base: Cents, p: Plan)
    requires p.modifierType == PERCENT
    ensures Distance(RoundHalfUp(base * (10000 + p.modifierValue), 10000) as real, base as real * Factor(p)) <= 0.5
  {
    var n := base * (10000 + p.modifierValue);
    RoundNear(n, 10000);
    assert n as real == base as real * (10000 + p.modifierValue) as real;
    assert base as real * Factor(p) == n as real / 10000.0;
    var r := RoundHalfUp(n, 10000);
    assert -10000.0 <= 2.0 * (r as real * 10000.0 - n as real) <= 10000.0 by {
      assert (r * 10000 - n) as real == r as real * 10000.0 - n as real;
    }
  }

  lemma ScaledDistance(d: real, e: real, f: real)
    requires 0.0 <= d <= e && f >= 0.0
    ensures 0.0 <= d * f <= e * f
  {
    assert (e - d) * f >= 0.0;
    Distributes(e, d, f);
  }

  lemma Scaled(x: real, y: real, f: real, e: real)
    requires f >= 0.0 && Distance(x, y) <= e
    ensures -(e * f) <= x * f - y * f <= e * f
  {
    var d := if x < y then y - x else x - y;
    ScaledDistance(d, e, f);
    if x < y {
      Distributes(y, x, f);
    } else {
      Distributes(x, y, f);
    }
  }

  lemma Distributes(x: real, y: real, f: real)
    ensures (x - y) * f == x * f - y * f
  {
  }

  lemma PercentApplied(x: Cents, p: Plan) returns (r: int)
    requires p.modifierType == PERCENT && p.modifierValue != 0
    ensures ApplyModifier(x, p) == if r < 0 then 0 else r
    ensures Distance(r as real, x as real * Factor(p)) <= 0.5
  {
    r := RoundHalfUp(x * (10000 + p.modifierValue), 10000);
    RoundedStep(x, p);
  }

  lemma Joined(r: int, xf: real, yf: real, e: real)
    requires Distance(r as real, xf) <= 0.5 && -e <= xf - yf <= e
    ensures Distance((if r < 0 then 0 else r) as real, Clamp(yf)) <= e + 0.5
  {
  }

  /** A discount of more than everything leaves nothing, rounded or not. */
  lemma PricedOut(x: Cents, y: real, p: Plan)
    requires x >= 0 && y >= 0.0 && p.modifierType == PERCENT && Factor(p) < 0.0
    ensures ApplyModifier(x, p) == 0 && ExactModifier(y, p) == 0.0
  {
    assert y * Factor(p) <= 0.0 && x * (10000 + p.modifierValue) <= 0;
    RoundMonotone(x * (10000 + p.modifierValue), 0, 10000);
  }

  lemma KeptStep(r: int, x: real, y: real, f: real, e: real)
    requires f >= 0.0 && Distance(x, y) <= e && Distance(r as real, x * f) <= 0.5
    ensures Distance((if r < 0 then 0 else r) as real, Clamp(y * f)) <= e * f + 0.5
  {
    Scaled(x, y, f, e);
    Joined(r, x * f, y * f, e * f);
  }

  /** The error a step passes on: a percentage scales what came before and adds half a hundredth of its own. */
  function NextError(p: Plan, e: real): real {
    if p.modifierType == PERCENT && p.modifierValue != 0 then e * Clamp(Factor(p)) + 0.5 else e
  }

  function ErrorBound(mods: seq<Plan>): real {
    if mods == [] then 0.0 else NextError(mods[0], ErrorBound(mods[1..]))
  }

  lemma PercentStep(x: Cents, y: real, p: Plan, e: real)
    requires x >= 0 && y >= 0.0 && Distance(x as real, y) <= e
    requires p.modifierType == PERCENT && p.modifierValue != 0
    ensures Distance(ApplyModifier(x, p) as real, ExactModifier(y, p)) <= e * Clamp(Factor(p)) + 0.5
  {
    if Factor(p) < 0.0 {
      PricedOut(x, y, p);
    } else {
      var z, w := KeptPercent(x, y, p, e);
    }
  }

  lemma KeptPercent(x: Cents, y: real, p: Plan, e: real) returns (z: int, w: real)
    requires Distance(x as real, y) <= e
    requires p.modifierType == PERCENT && p.modifierValue != 0 && Factor(p) >= 0.0
    ensures z == ApplyModifier(x, p) && w == ExactModifier(y, p)
    ensures Distance(z as real, w) <= e * Factor(p) + 0.5
  {
    var r := PercentApplied(x, p);
    ExactPercent(y, p);
    z, w := if r < 0 then 0 else r, Clamp(y * Factor(p));
    KeptResult(z, w, r, x as real, y, Factor(p), e);
  }

  lemma KeptResult(z: int, w: real, r: int, x: real, y: real, f: real, e: real)
    requires f >= 0.0 && Distance(x, y) <= e && Distance(r as real, x * f) <= 0.5
    requires z == (if r < 0 then 0 else r) && w == Clamp(y * f)
    ensures Distance(z as real, w) <= e * f + 0.5
  {
    KeptStep(r, x, y, f, e);
  }

  lemma ExactPercent(y: real, p: Plan)
    requires p.modifierType == PERCENT && p.modifierValue != 0
    ensures ExactModifier(y, p) == Clamp(y * Factor(p))
  {
  }

  lemma AbsoluteStep(x: Cents, y: real, p: Plan, e: real)
    requires y >= 0.0 && Distance(x as real, y) <= e
    requires p.modifierType == ABSOLUTE || p.modifierValue == 0
    ensures Distance(ApplyModifier(x, p) as real, ExactModifier(y, p)) <= e
  {
  }

  lemma {:induction false} ExactNonNegative(mods: seq<Plan>, base: real)
    requires base >= 0.0
    ensures ExactChain(mods, base) >= 0.0
  {
    if mods != [] {
      ExactNonNegative(mods[1..], base);
    }
  }

  function PercentSteps(mods: seq<Plan>): (k: nat)
    ensures k <= |mods|
  {
    if mods == [] then 0 else (if mods[0].modifierType == PERCENT then 1 else 0) + PercentSteps(mods[1..])
  }

  lemma ModifierStep(x: Cents, y: real, p: Plan, e: real)
    requires x >= 0 && y >= 0.0 && Distance(x as real, y) <= e
    ensures Distance(ApplyModifier(x, p) as real, ExactModifier(y, p)) <= NextError(p, e)
  {
    if p.modifierType == PERCENT && p.modifierValue != 0 {
      PercentStep(x, y, p, e);
    } else {
      AbsoluteStep(x, y, p, e);
    }
  }

  /** Whatever the modifiers, the charged price strays from the unrounded computation by at most the error carried down the chain. */
  lemma {:induction false} ChainStaysWithin(mods: seq<Plan>, base: Cents)
    requires base >= 0
    ensures Distance(ThroughChain(mods, base) as real, ExactChain(mods, base as real)) <= ErrorBound(mods)
  {
    if mods != [] {
      ChainStaysWithin(mods[1..], base);
      ChainMonotone(mods[1..], base, base);
      ExactNonNegative(mods[1..], base as real);
      ModifierStep(ThroughChain(mods[1..], base), ExactChain(mods[1..], base as real), mods[0], ErrorBound(mods[1..]));
    }
  }

  lemma DiscountError(p: Plan, e: real)
    requires e >= 0.0 && p.modifierValue <= 0
    ensures 0.0 <= e * Clamp(Factor(p)) <= e
  {
    var f := Clamp(Factor(p));
    assert 0.0 <= f <= 1.0;
    ScaledDistance(f, 1.0, e);
    assert f * e == e * f;
  }

  lemma DiscountNext(p: Plan, e: real, k: nat)
    requires 0.0 <= e <= k as real * 0.5 && (p.modifierType == ABSOLUTE || p.modifierValue <= 0)
    ensures 0.0 <= NextError(p, e) <= ((if p.modifierType == PERCENT then 1 else 0) + k) as real * 0.5
  {
    if p.modifierType == PERCENT {
      DiscountError(p, e);
      assert (1 + k) as real == 1.0 + k as real;
      var carried := e * Clamp(Factor(p));
      assert NextError(p, e) == e || NextError(p, e) == carried + 0.5;
      assert 0.0 <= carried <= k as real * 0.5;
    }
  }

  /** With discounts and absolute amounts only, the error is at most half a hundredth for each percentage step. */
  lemma {:induction false} DiscountsStayClose(mods: seq<Plan>, base: Cents)
    requires base >= 0
    requires forall p :: p in mods ==> p.modifierType == ABSOLUTE || p.modifierValue <= 0
    ensures Distance(ThroughChain(mods, base) as real, ExactChain(mods, base as real)) <= PercentSteps(mods) as real * 0.5
  {
    ChainStaysWithin(mods, base);
    DiscountErrors(mods);
  }

  lemma {:induction false} DiscountErrors(mods: seq<Plan>)
    requires forall p :: p in mods ==> p.modifierType == ABSOLUTE || p.modifierValue <= 0
    ensures 0.0 <= ErrorBound(mods) <= PercentSteps(mods) as real * 0.5
  {
    if mods != [] {
      assert mods[0] in mods && forall p :: p in mods[1..] ==> p in mods;
      DiscountErrors(mods[1..]);
      DiscountNext(mods[0], ErrorBound(mods[1..]), PercentSteps(mods[1..]));
    }
  }

  /** A surcharge magnifies an earlier rounding: one hundredth, minus 33 %, plus 900 %. */
  lemma SurchargeStraysFurther(discount: Plan, surcharge: Plan)
    requires discount.modifierType == PERCENT && discount.modifierValue == -3300
    requires surcharge.modifierType == PERCENT && surcharge.modifierValue == 90000
    ensures Distance(ThroughChain([surcharge, discount], 1) as real, ExactChain([surcharge, discount], 1.0))
            > PercentSteps([surcharge, discount]) as real * 0.5
  {
    var mods := [surcharge, discount];
    assert mods[1..] == [discount] && [discount][1..] == [];
    assert ThroughChain([discount], 1) == 1;
    assert ThroughChain(mods, 1) == 10;
    assert Factor(discount) == 0.67 && Factor(surcharge) == 10.0;
    assert ExactChain([], 1.0) == 1.0;
    assert ExactChain([discount], 1.0) == 0.67;
    assert ExactChain(mods, 1.0) == 6.7;
    assert PercentSteps([discount]) == 1 && PercentSteps(mods) == 2;
  }

  // ── One night, as the rule says ──────────────────────────────────────────

  datatype RateKey = RateKey(plan: Id, room: Id, date: Day, occupancy: nat)

  /** What the calculator is handed besides the chain and the dates. */
  datatype Context = Context(room: Id, occupancy: nat, baseOccupancy: nat, rates: map<RateKey, Cents>,
                             fallback: (Id, Day) -> Option<Cents>)

  datatype Own = Own(price: Cents, occupancyFallback: bool)

  datatype Found = Found(price: Cents, occupancyFallback: bool, depth: nat, source: Id)

  datatype PricingNight = PricingNight(date: Day, price: Cents, hasRate: bool, occupancyFallback: bool,
                                       inherited: bool, source: Option<Id>)

  function FindRate(c: Context, plan: Id, date: Day, occupancy: nat): Option<Cents> {
    var k := RateKey(plan, c.room, date, occupancy);
    if k in c.rates then Some(c.rates[k]) else None
  }

  /** A plan's own price: its day row, its day row for the base party, its baseline. */
  function OwnNight(c: Context, p: Plan, date: Day): Option<Own> {
    var exact := FindRate(c, p.id, date, if p.occupancyPricing then c.occupancy else c.baseOccupancy);
    var forBase := if p.occupancyPricing && c.occupancy != c.baseOccupancy then FindRate(c, p.id, date, c.baseOccupancy) else None;
    var baseline := c.fallback(p.id, date);
    if exact.Some? then Some(Own(exact.value, false))
    else if forBase.Some? then Some(Own(forBase.value, true))
    else if baseline.Some? then Some(Own(baseline.value, false))
    else None
  }

  /** A plan's price is its own, or its parent's with the plan's modifier applied. */
  function ChainNight(c: Context, chain: seq<Plan>, date: Day): Option<Found> {
    if chain == [] then None
    else
      match OwnNight(c, chain[0], date)
      case Some(own) => Some(Found(own.price, own.occupancyFallback, 0, chain[0].id))
      case None =>
        match ChainNight(c, chain[1..], date)
        case None => None
        case Some(f) => Some(Found(ApplyModifier(f.price, chain[0]), f.occupancyFallback, f.depth + 1, f.source))
  }

  function NightOf(c: Context, chain: seq<Plan>, date: Day): PricingNight {
    match ChainNight(c, chain, date)
    case None => PricingNight(date, 0, false, false, false, None)
    case Some(f) => PricingNight(date, f.price, true, f.occupancyFallback, f.depth > 0, Some(f.source))
  }

  // ── A stay ───────────────────────────────────────────────────────────────

  datatype Breakdown = Breakdown(nightly: seq<PricingNight>, warnings: seq<Day>, total: Cents)
  datatype Result = Priced(breakdown: Breakdown) | RangeError

  function Nightly(c: Context, chain: seq<Plan>, start: Day, end: Day): seq<PricingNight>
    decreases end - start
  {
    if end <= start then [] else [NightOf(c, chain, start)] + Nightly(c, chain, start + 1, end)
  }

  function Warnings(nightly: seq<PricingNight>): seq<Day> {
    if nightly == [] then []
    else (if nightly[0].hasRate then [] else [nightly[0].date]) + Warnings(nightly[1..])
  }

  function Total(nightly: seq<PricingNight>): Cents {
    if nightly == [] then 0 else nightly[0].price + Total(nightly[1..])
  }

  function StayOf(c: Context, chain: seq<Plan>, start: Day, end: Day): Breakdown {
    var nightly := Nightly(c, chain, start, end);
    Breakdown(nightly, Warnings(nightly), Total(nightly))
  }

  /** Prices each night of [start, end) and adds them up. */
  method CalculatePricing(c: Context, chain: seq<Plan>, start: Day, end: Day) returns (r: Result)
    ensures end < start ==> r == RangeError
    ensures start <= end ==> r == Priced(StayOf(c, chain, start, end))
  {
    if end < start {
      return RangeError;
    }
    var nightly, warnings := [], [];
    for i := 0 to end - start
      invariant nightly == Nightly(c, chain, start, start + i)
      invariant warnings == Warnings(nightly)
    {
      var night := PriceNight(c, chain, start + i);
      if !night.hasRate {
        warnings := warnings + [start + i];
      }
      NightlySplit(c, chain, start, start + i, start + i + 1);
      SumsSplit(nightly, [night]);
      nightly := nightly + [night];
    }
    var subtotal := 0;
    for i := 0 to |nightly|
      invariant subtotal == Total(nightly[..i])
    {
      assert nightly[..i+1] == nightly[..i] + [nightly[i]];
      SumsSplit(nightly[..i], [nightly[i]]);
      subtotal := subtotal + nightly[i].price;
    }
    assert nightly[..|nightly|] == nightly;
    r := Priced(Breakdown(nightly, warnings, subtotal));
  }

  /** Walks up to the first plan with a price, then back down through the modifiers. */
  method PriceNight(c: Context, chain: seq<Plan>, date: Day) returns (night: PricingNight)
    ensures night == NightOf(c, chain, date)
  {
    var foundIndex := 0;
    var basePrice: Option<Cents> := None;
    var occupancyFallback := false;
    while foundIndex < |chain|
      invariant 0 <= foundIndex <= |chain|
      invariant forall i :: 0 <= i < foundIndex ==> OwnNight(c, chain[i], date).None?
      invariant basePrice.None? && !occupancyFallback
    {
      var plan := chain[foundIndex];
      var found := FindRate(c, plan.id, date, if plan.occupancyPricing then c.occupancy else c.baseOccupancy);
      if found.None? && plan.occupancyPricing && c.occupancy != c.baseOccupancy {
        found := FindRate(c, plan.id, date, c.baseOccupancy);
        if found.Some? {
          occupancyFallback := true;
        }
      }
      if found.None? {
        found := c.fallback(plan.id, date);
      }
      if found.Some? {
        basePrice := found;
        assert OwnNight(c, plan, date) == Some(Own(basePrice.value, occupancyFallback));
        break;
      }
      foundIndex := foundIndex + 1;
    }
    if basePrice.None? {
      NoPriceInChain(c, chain, date);
      return PricingNight(date, 0, false, false, false, None);
    }
    var price := basePrice.value;
    var i := foundIndex;
    assert chain[foundIndex..][0] == chain[foundIndex];
    while i > 0
      invariant 0 <= i <= foundIndex < |chain|
      invariant ChainNight(c, chain[i..], date) == Some(Found(price, occupancyFallback, foundIndex - i, chain[foundIndex].id))
    {
      i := i - 1;
      assert chain[i..][0] == chain[i] && chain[i..][1..] == chain[i+1..];
      price := ApplyModifier(price, chain[i]);
    }
    assert chain[0..] == chain;
    night := PricingNight(date, price, true, occupancyFallback, foundIndex > 0, Some(chain[foundIndex].id));
  }

  lemma {:induction false} NoPriceInChain(c: Context, chain: seq<Plan>, date: Day)
    ensures ChainNight(c, chain, date).None? <==> forall i :: 0 <= i < |chain| ==> OwnNight(c, chain[i], date).None?
  {
    if chain != [] {
      NoPriceInChain(c, chain[1..], date);
      assert forall i :: 0 <= i < |chain[1..]| ==> chain[1..][i] == chain[i+1];
    }
  }

  /** The price of a night comes from the nearest plan with a price, through every modifier below it. */
  lemma {:induction false} ChainNightMeaning(c: Context, chain: seq<Plan>, date: Day)
    requires ChainNight(c, chain, date).Some?
    ensures var f := ChainNight(c, chain, date).value;
            && f.depth < |chain|
            && f.source == chain[f.depth].id
            && (forall i :: 0 <= i < f.depth ==> OwnNight(c, chain[i], date).None?)
            && OwnNight(c, chain[f.depth], date).Some?
            && f.occupancyFallback == OwnNight(c, chain[f.depth], date).value.occupancyFallback
            && f.price == ThroughChain(chain[..f.depth], OwnNight(c, chain[f.depth], date).value.price)
  {
    if OwnNight(c, chain[0], date).None? {
      ChainNightMeaning(c, chain[1..], date);
      var f := ChainNight(c, chain, date).value;
      assert forall i :: 0 <= i < |chain[1..]| ==> chain[1..][i] == chain[i+1];
      assert chain[..f.depth][1..] == chain[1..][..f.depth-1];
    }
  }

  /**
   * A night without a price anywhere in the chain costs nothing and says so; otherwise it is charged by the first
   * plan with a price, through the modifiers below it, and says which plan that was and whether it was a parent.
   */
  lemma QuotedNight(c: Context, chain: seq<Plan>, date: Day, k: nat)
    ensures (forall i :: 0 <= i < |chain| ==> OwnNight(c, chain[i], date).None?) ==>
              NightOf(c, chain, date) == PricingNight(date, 0, false, false, false, None)
    ensures k < |chain| && (forall i :: 0 <= i < k ==> OwnNight(c, chain[i], date).None?) && OwnNight(c, chain[k], date).Some? ==>
              var own := OwnNight(c, chain[k], date).value;
              NightOf(c, chain, date)
              == PricingNight(date, ThroughChain(chain[..k], own.price), true, own.occupancyFallback, k > 0, Some(chain[k].id))
  {
    NoPriceInChain(c, chain, date);
    if ChainNight(c, chain, date).Some? {
      ChainNightMeaning(c, chain, date);
    }
  }

  // ── Splitting a stay ─────────────────────────────────────────────────────

  lemma {:induction false} NightlySplit(c: Context, chain: seq<Plan>, start: Day, mid: Day, end: Day)
    requires start <= mid <= end
    ensures Nightly(c, chain, start, end) == Nightly(c, chain, start, mid) + Nightly(c, chain, mid, end)
    decreases mid - start
  {
    if start < mid {
      NightlySplit(c, chain, start + 1, mid, end);
    }
  }

  lemma {:induction false} SumsSplit(a: seq<PricingNight>, b: seq<PricingNight>)
    ensures Total(a + b) == Total(a) + Total(b)
    ensures Warnings(a + b) == Warnings(a) + Warnings(b)
  {
    if a == [] {
      assert a + b == b;
    } else {
      assert (a + b)[0] == a[0] && (a + b)[1..] == a[1..] + b;
      SumsSplit(a[1..], b);
    }
  }

  /** Splitting a stay at any day splits its nights, its warnings and its total. */
  lemma StaySplits(c: Context, chain: seq<Plan>, start: Day, mid: Day, end: Day)
    requires start <= mid <= end
    ensures var whole, first, second := StayOf(c, chain, start, end), StayOf(c, chain, start, mid), StayOf(c, chain, mid, end);
            && whole.nightly == first.nightly + second.nightly
            && whole.warnings == first.warnings + second.warnings
            && whole.total == first.total + second.total
  {
    NightlySplit(c, chain, start, mid, end);
    SumsSplit(Nightly(c, chain, start, mid), Nightly(c, chain, mid, end));
  }

  lemma {:induction false} NightsInTurn(c: Context, chain: seq<Plan>, start: Day, end: Day)
    requires start <= end
    ensures |Nightly(c, chain, start, end)| == end - start
    ensures forall i :: 0 <= i < end - start ==> Nightly(c, chain, start, end)[i] == NightOf(c, chain, start + i)
    decreases end - start
  {
    if start < end {
      NightsInTurn(c, chain, start + 1, end);
    }
  }

  function ChargedFor(): PricingNight -> Cents {
    (n: PricingNight) => n.price
  }

  lemma {:induction false} TotalIsSum(nightly: seq<PricingNight>)
    ensures Total(nightly) == SumCents(Map(ChargedFor(), nightly))
  {
    if nightly != [] {
      TotalIsSum(nightly[1..]);
      assert Map(ChargedFor(), nightly)[1..] == Map(ChargedFor(), nightly[1..]);
    }
  }

  lemma NightHasDate(c: Context, chain: seq<Plan>, date: Day)
    ensures NightOf(c, chain, date).date == date
  {
  }

  lemma WarnedFirst(night: PricingNight, rest: seq<PricingNight>)
    ensures Warnings([night] + rest) == (if night.hasRate then [] else [night.date]) + Warnings(rest)
  {
    assert ([night] + rest)[0] == night && ([night] + rest)[1..] == rest;
  }

  lemma {:induction false} StayWarns(c: Context, chain: seq<Plan>, start: Day, end: Day, day: Day)
    ensures day in Warnings(Nightly(c, chain, start, end)) <==> start <= day < end && !NightOf(c, chain, day).hasRate
    decreases end - start
  {
    if start < end {
      StayWarns(c, chain, start + 1, end, day);
      NightHasDate(c, chain, start);
      WarnedFirst(NightOf(c, chain, start), Nightly(c, chain, start + 1, end));
    }
  }

  /** A stay is its nights in turn, warned of exactly where there is no price, at the sum of their prices. */
  lemma StayMeaning(c: Context, chain: seq<Plan>, start: Day, end: Day)
    requires start <= end
    ensures var stay := StayOf(c, chain, start, end);
            && |stay.nightly| == end - start
            && (forall i :: 0 <= i < end - start ==> stay.nightly[i] == NightOf(c, chain, start + i))
            && (forall day :: day in stay.warnings <==> start <= day < end && !NightOf(c, chain, day).hasRate)
            && stay.total == SumCents(Map(ChargedFor(), stay.nightly))
  {
    NightsInTurn(c, chain, start, end);
    TotalIsSum(Nightly(c, chain, start, end));
    forall day: Day ensures day in Warnings(Nightly(c, chain, start, end)) <==> start <= day < end && !NightOf(c, chain, day).hasRate {
      StayWarns(c, chain, start, end, day);
    }
  }

  // ── Long and cyclic chains ───────────────────────────────────────────────

  /** Parents beyond `front` count exactly when nothing in `front` has a price and something beyond does. */
  lemma {:induction false} DepthBoundIff(c: Context, front: seq<Plan>, back: seq<Plan>, date: Day)
    ensures ChainNight(c, front + back, date) == ChainNight(c, front, date)
            <==> ChainNight(c, front, date).Some? || ChainNight(c, back, date).None?
  {
    if front == [] {
      assert front + back == back;
    } else {
      assert (front + back)[0] == front[0] && (front + back)[1..] == front[1..] + back;
      DepthBoundIff(c, front[1..], back, date);
      NoPriceInChain(c, front + back, date);
      NoPriceInChain(c, front[1..] + back, date);
      NoPriceInChain(c, front, date);
      NoPriceInChain(c, back, date);
      FrontFirst(c, front, back, date);
    }
  }

  lemma {:induction false} FrontFirst(c: Context, front: seq<Plan>, back: seq<Plan>, date: Day)
    ensures ChainNight(c, front, date).Some? ==> ChainNight(c, front + back, date) == ChainNight(c, front, date)
    ensures ChainNight(c, front, date).None? ==> (ChainNight(c, front + back, date).None? <==> ChainNight(c, back, date).None?)
  {
    if front == [] {
      assert front + back == back;
    } else {
      assert (front + back)[0] == front[0] && (front + back)[1..] == front[1..] + back;
      FrontFirst(c, front[1..], back, date);
    }
  }

  /** The first `depth` ancestors, as stored. */
  function Ancestors(plans: map<Id, Plan>, parent: Option<Id>, depth: nat): seq<Plan>
    decreases depth
  {
    if depth == 0 || parent.None? || parent.value !in plans then []
    else [plans[parent.value]] + Ancestors(plans, plans[parent.value].parent, depth - 1)
  }

  function ChainOf(plans: map<Id, Plan>, leaf: Plan): seq<Plan> {
    [leaf] + Ancestors(plans, leaf.parent, MAX_PARENTS)
  }

  ghost predicate Stored(plans: map<Id, Plan>, chain: seq<Plan>) {
    && (forall p :: p in chain ==> p.id in plans && plans[p.id] == p)
    && (forall i :: 0 <= i < |chain| - 1 ==> chain[i].parent == Some(chain[i+1].id))
  }

  lemma {:induction false} AncestorsStored(plans: map<Id, Plan>, leaf: Plan, depth: nat)
    requires forall i :: i in plans ==> plans[i].id == i
    requires leaf.id in plans && plans[leaf.id] == leaf
    ensures Stored(plans, [leaf] + Ancestors(plans, leaf.parent, depth))
    decreases depth
  {
    var up := Ancestors(plans, leaf.parent, depth);
    if up != [] {
      AncestorsStored(plans, up[0], depth - 1);
      assert up == [up[0]] + Ancestors(plans, up[0].parent, depth - 1);
      var chain := [leaf] + up;
      forall i | 0 <= i < |chain| - 1 ensures chain[i].parent == Some(chain[i+1].id) {
        assert i > 0 ==> up[i-1].parent == Some(up[i].id);
      }
    }
  }

  /** After a plan comes back, the chain only repeats plans it has already visited. */
  lemma {:induction false} RepeatsOnly(plans: map<Id, Plan>, chain: seq<Plan>, i: nat, j: nat, k: nat)
    requires Stored(plans, chain) && i < j < |chain| && chain[i].id == chain[j].id && j + k < |chain|
    ensures chain[j+k] in chain[..j]
    decreases k
  {
    SameFollowers(plans, chain, i, j, k);
    if i + k < j {
      assert chain[..j][i+k] == chain[i+k];
    } else {
      RepeatsOnly(plans, chain, i, j, i + k - j);
    }
  }

  lemma {:induction false} SameFollowers(plans: map<Id, Plan>, chain: seq<Plan>, i: nat, j: nat, k: nat)
    requires Stored(plans, chain) && i < j < |chain| && chain[i].id == chain[j].id && j + k < |chain|
    ensures chain[i+k] == chain[j+k]
  {
    assert chain[i] in chain && chain[j] in chain;
    if k > 0 {
      SameFollowers(plans, chain, i, j, k - 1);
      assert chain[i+k-1].parent == Some(chain[i+k].id) && chain[j+k-1].parent == Some(chain[j+k].id);
      assert chain[i+k] in chain && chain[j+k] in chain;
    }
  }

  /** A cycle among the parents changes nothing: cutting the chain at the first repetition prices every night alike. */
  lemma CycleChangesNothing(c: Context, plans: map<Id, Plan>, leaf: Plan, depth: nat, i: nat, j: nat, date: Day)
    requires forall k :: k in plans ==> plans[k].id == k
    requires leaf.id in plans && plans[leaf.id] == leaf
    requires var chain := [leaf] + Ancestors(plans, leaf.parent, depth); i < j < |chain| && chain[i].id == chain[j].id
    ensures var chain := [leaf] + Ancestors(plans, leaf.parent, depth);
            NightOf(c, chain, date) == NightOf(c, chain[..j], date)
  {
    var chain := [leaf] + Ancestors(plans, leaf.parent, depth);
    AncestorsStored(plans, leaf, depth);
    var front, back := chain[..j], chain[j..];
    assert chain == front + back;
    FrontFirst(c, front, back, date);
    if ChainNight(c, front, date).None? {
      NoPriceInChain(c, front, date);
      NoPriceInChain(c, back, date);
      forall k | 0 <= k < |back| ensures OwnNight(c, back[k], date).None? {
        RepeatsOnly(plans, chain, i, j, k);
        assert back[k] == chain[j+k];
      }
    }
  }

  // ── The quote service ────────────────────────────────────────────────────

  function RateMap(days: seq<DayRate>): map<RateKey, Cents> {
    if days == [] then map[]
    else
      var last := days[|days|-1];
      RateMap(days[..|days|-1])[RateKey(last.plan, last.room, last.date, last.occupancy) := last.price]
  }

  /** Later rows for one key overwrite earlier ones. */
  method MakeMapLookup(rows: seq<DayRate>) returns (m: map<RateKey, Cents>)
    ensures m == RateMap(rows)
  {
    m := map[];
    for i := 0 to |rows|
      invariant m == RateMap(rows[..i])
    {
      assert rows[..i+1][..i] == rows[..i];
      m := m[RateKey(rows[i].plan, rows[i].room, rows[i].date, rows[i].occupancy) := rows[i].price];
    }
    assert rows[..|rows|] == rows;
  }

  function BaselineOf(seasons: seq<Season>, standards: seq<StandardRate>, room: Id, occupancy: nat): (Id, Day) -> Option<Cents> {
    (plan: Id, date: Day) => PlainResolve(seasons, standards, (plan, room), date, occupancy)
  }

  /** The calculation's context when every row of the price book is loaded. */
  function FullContext(t: PriceTables, room: Id, occupancy: nat, baseOccupancy: nat): Context {
    Context(room, occupancy, baseOccupancy, RateMap(t.days), BaselineOf(t.seasons, t.standards, room, occupancy))
  }

  function DaysWanted(plans: set<Id>, room: Id, arrival: Day, departure: Day): DayRate -> bool {
    (r: DayRate) => r.plan in plans && r.room == room && arrival <= r.date < departure
  }

  function SeasonsWanted(plans: set<Id>, room: Id): Season -> bool {
    (r: Season) => r.plan in plans && r.room == room
  }

  function StandardsWanted(plans: set<Id>, room: Id): StandardRate -> bool {
    (r: StandardRate) => r.plan in plans && r.room == room
  }

  datatype QuoteResult = Quoted(breakdown: Breakdown) | BadRequest | NotFound

  /** Follows the parents of a plan, at most five of them, stopping at one that is gone. */
  method LoadParents(plans: map<Id, Plan>, ratePlan: Plan) returns (parentChain: seq<Plan>)
    ensures parentChain == Ancestors(plans, ratePlan.parent, MAX_PARENTS)
  {
    parentChain := [];
    var currentParent := ratePlan.parent;
    var depth := 0;
    while currentParent.Some? && depth < MAX_PARENTS
      invariant depth <= MAX_PARENTS
      invariant parentChain + Ancestors(plans, currentParent, MAX_PARENTS - depth) == Ancestors(plans, ratePlan.parent, MAX_PARENTS)
      decreases MAX_PARENTS - depth
    {
      if currentParent.value !in plans {
        break;
      }
      var parent := plans[currentParent.value];
      assert parentChain + Ancestors(plans, currentParent, MAX_PARENTS - depth)
             == parentChain + [parent] + Ancestors(plans, parent.parent, MAX_PARENTS - depth - 1);
      parentChain := parentChain + [parent];
      currentParent := parent.parent;
      depth := depth + 1;
    }
  }

  /** The context the quote builds from the rows its queries load. */
  function LoadedContext(t: PriceTables, ids: set<Id>, room: Id, arrival: Day, departure: Day, occupancy: nat, baseOccupancy: nat): Context {
    Context(room, occupancy, baseOccupancy, RateMap(Filter(DaysWanted(ids, room, arrival, departure), t.days)),
            BaselineOf(Filter(SeasonsWanted(ids, room), t.seasons), Filter(StandardsWanted(ids, room), t.standards), room, occupancy))
  }

  /** Quotes a stay from the rows its queries load; the answer is the one the whole price book gives. */
  method QuoteStay(plans: map<Id, Plan>, roomTypes: map<Id, nat>, t: PriceTables, planId: Id, room: Id,
                   arrival: Day, departure: Day, occupancy: nat)
    returns (r: QuoteResult)
    ensures departure < arrival ==> r == BadRequest
    ensures arrival <= departure && (room !in roomTypes || planId !in plans) ==> r == NotFound
    ensures arrival <= departure && room in roomTypes && planId in plans ==>
              r == Quoted(StayOf(FullContext(t, room, occupancy, roomTypes[room]), ChainOf(plans, plans[planId]), arrival, departure))
  {
    if departure < arrival {
      return BadRequest;
    }
    if room !in roomTypes || planId !in plans {
      return NotFound;
    }
    var parentChain := LoadParents(plans, plans[planId]);
    var chain := [plans[planId]] + parentChain;
    var planIds := set p | p in chain :: p.id;
    var rates := MakeMapLookup(Filter(DaysWanted(planIds, room, arrival, departure), t.days));
    var c := LoadedContext(t, planIds, room, arrival, departure, occupancy, roomTypes[room]).(rates := rates);
    QuoteLoadsEnough(t, chain, planIds, room, arrival, departure, occupancy, roomTypes[room]);
    var priced := CalculatePricing(c, chain, arrival, departure);
    r := Quoted(priced.breakdown);
  }

  /** Each plan of the list is the stored parent of the one before it. */
  ghost predicate Linked(plans: map<Id, Plan>, chain: seq<Plan>) {
    forall i :: 0 <= i < |chain| - 1 ==>
      chain[i].parent.Some? && chain[i].parent.value in plans && chain[i+1] == plans[chain[i].parent.value]
  }

  lemma {:induction false} AncestorsEnd(plans: map<Id, Plan>, leaf: Plan, depth: nat)
    ensures var chain := [leaf] + Ancestors(plans, leaf.parent, depth);
            && |chain| <= depth + 1 && Linked(plans, chain)
            && (|chain| == depth + 1 || chain[|chain|-1].parent.None? || chain[|chain|-1].parent.value !in plans)
    decreases depth
  {
    if depth > 0 && leaf.parent.Some? && leaf.parent.value in plans {
      var parent := plans[leaf.parent.value];
      AncestorsEnd(plans, parent, depth - 1);
      var chain, up := [leaf] + Ancestors(plans, leaf.parent, depth), [parent] + Ancestors(plans, parent.parent, depth - 1);
      assert chain == [leaf] + up;
      forall i | 0 <= i < |chain| - 1
        ensures chain[i].parent.Some? && chain[i].parent.value in plans && chain[i+1] == plans[chain[i].parent.value]
      {
        assert chain[i+1] == up[i] && (i > 0 ==> chain[i] == up[i-1]);
      }
    }
  }

  /** A quote looks at the plan and its stored parents, one after the other, and stops only at the fifth, at a plan without a parent or at one whose parent is gone. */
  lemma ChainEnds(plans: map<Id, Plan>, leaf: Plan)
    ensures var chain := ChainOf(plans, leaf);
            && 1 <= |chain| <= 6 && chain[0] == leaf && Linked(plans, chain)
            && (|chain| == 6 || chain[|chain|-1].parent.None? || chain[|chain|-1].parent.value !in plans)
  {
    AncestorsEnd(plans, leaf, MAX_PARENTS);
  }

  /** The day rows of the key all carry the row's price. */
  ghost predicate OnlyDayPrice(t: PriceTables, r: DayRate) {
    && r in t.days
    && forall x :: x in t.days && x.plan == r.plan && x.room == r.room && x.date == r.date && x.occupancy == r.occupancy ==> x.price == r.price
  }

  ghost predicate NoDayPrice(t: PriceTables, plan: Id, room: Id, date: Day, occupancy: nat) {
    forall x :: x in t.days && x.plan == plan && x.room == room && x.date == date ==> x.occupancy != occupancy
  }

  lemma {:induction false} RateMapMeaning(days: seq<DayRate>, k: RateKey)
    ensures k in RateMap(days) <==> exists x :: x in days && RateKey(x.plan, x.room, x.date, x.occupancy) == k
    ensures k in RateMap(days) ==> exists x :: x in days && RateKey(x.plan, x.room, x.date, x.occupancy) == k && RateMap(days)[k] == x.price
  {
    if days != [] {
      var init, last := days[..|days|-1], days[|days|-1];
      assert days == init + [last];
      RateMapMeaning(init, k);
      assert last in days;
    }
  }

  lemma DayPriceFound(t: PriceTables, room: Id, occupancy: nat, baseOccupancy: nat, plan: Id, date: Day, bucket: nat)
    ensures NoDayPrice(t, plan, room, date, bucket) ==> FindRate(FullContext(t, room, occupancy, baseOccupancy), plan, date, bucket).None?
    ensures forall r :: OnlyDayPrice(t, r) && r.plan == plan && r.room == room && r.date == date && r.occupancy == bucket ==>
              FindRate(FullContext(t, room, occupancy, baseOccupancy), plan, date, bucket) == Some(r.price)
  {
    RateMapMeaning(t.days, RateKey(plan, room, date, bucket));
  }

  /**
   * A plan's own price for a night: with prices by the party, the day row for the party, and when there is none the
   * one for the base party, noted as a fallback; without, the day row for the base party.
   */
  lemma OwnNightByDay(t: PriceTables, p: Plan, room: Id, occupancy: nat, baseOccupancy: nat, date: Day, r: DayRate)
    requires OnlyDayPrice(t, r) && r.plan == p.id && r.room == room && r.date == date
    ensures var own := OwnNight(FullContext(t, room, occupancy, baseOccupancy), p, date);
            && (p.occupancyPricing && r.occupancy == occupancy ==> own == Some(Own(r.price, false)))
            && (p.occupancyPricing && r.occupancy == baseOccupancy && NoDayPrice(t, p.id, room, date, occupancy) ==>
                  own == Some(Own(r.price, true)))
            && (!p.occupancyPricing && r.occupancy == baseOccupancy ==> own == Some(Own(r.price, false)))
  {
    DayPriceFound(t, room, occupancy, baseOccupancy, p.id, date, occupancy);
    DayPriceFound(t, room, occupancy, baseOccupancy, p.id, date, baseOccupancy);
  }

  /** Only without such a day row the season decides, then the standard price, by the number of guests asked for. */
  lemma OwnNightByBaseline(t: PriceTables, p: Plan, room: Id, occupancy: nat, baseOccupancy: nat, date: Day)
    requires NoDayPrice(t, p.id, room, date, baseOccupancy)
    requires p.occupancyPricing ==> NoDayPrice(t, p.id, room, date, occupancy)
    ensures var own := OwnNight(FullContext(t, room, occupancy, baseOccupancy), p, date);
            && (forall s :: SeasonDecides(t.seasons, (p.id, room), date, occupancy, s) ==> own == Some(Own(s.price, false)))
            && (NoSeasonDecides(t.seasons, (p.id, room), date, occupancy) ==>
                  && (forall r :: StandardDecides(t.standards, (p.id, room), occupancy, r) ==> own == Some(Own(r.price, false)))
                  && (NoStandardDecides(t.standards, (p.id, room), occupancy) ==> own.None?))
  {
    DayPriceFound(t, room, occupancy, baseOccupancy, p.id, date, occupancy);
    DayPriceFound(t, room, occupancy, baseOccupancy, p.id, date, baseOccupancy);
    var k, own := (p.id, room), OwnNight(FullContext(t, room, occupancy, baseOccupancy), p, date);
    forall s | SeasonDecides(t.seasons, k, date, occupancy, s) ensures own == Some(Own(s.price, false)) {
      SeasonIsCharged(t.seasons, t.standards, k, date, occupancy, s);
    }
    if NoSeasonDecides(t.seasons, k, date, occupancy) {
      forall r | StandardDecides(t.standards, k, occupancy, r) ensures own == Some(Own(r.price, false)) {
        StandardIsCharged(t.seasons, t.standards, k, date, occupancy, r);
      }
      if NoStandardDecides(t.standards, k, occupancy) {
        NothingIsCharged(t.seasons, t.standards, k, date, occupancy);
      }
    }
  }

  lemma RateMapLast(s: seq<DayRate>, r: DayRate)
    ensures RateMap(s + [r]) == RateMap(s)[RateKey(r.plan, r.room, r.date, r.occupancy) := r.price]
  {
    assert (s + [r])[..|s|] == s;
  }

  lemma {:induction false} RateMapFiltered(keep: DayRate -> bool, days: seq<DayRate>, k: RateKey)
    requires forall r: DayRate :: RateKey(r.plan, r.room, r.date, r.occupancy) == k ==> keep(r)
    ensures k in RateMap(Filter(keep, days)) <==> k in RateMap(days)
    ensures k in RateMap(days) ==> RateMap(Filter(keep, days))[k] == RateMap(days)[k]
  {
    if days != [] {
      var init, last := days[..|days|-1], days[|days|-1];
      assert days == init + [last];
      RateMapFiltered(keep, init, k);
      FilterConcat(keep, init, [last]);
      RateMapLast(init, last);
      RateMapLast(Filter(keep, init), last);
      assert Filter(keep, [last]) == if keep(last) then [last] else [];
      assert Filter(keep, days) == if keep(last) then Filter(keep, init) + [last] else Filter(keep, init);
    }
  }

  lemma OwnNightLoaded(t: PriceTables, p: Plan, ids: set<Id>, room: Id, arrival: Day, departure: Day, occupancy: nat,
                       baseOccupancy: nat, date: Day)
    requires p.id in ids && arrival <= date < departure
    ensures OwnNight(LoadedContext(t, ids, room, arrival, departure, occupancy, baseOccupancy), p, date)
            == OwnNight(FullContext(t, room, occupancy, baseOccupancy), p, date)
  {
    RateMapFiltered(DaysWanted(ids, room, arrival, departure), t.days, RateKey(p.id, room, date, occupancy));
    RateMapFiltered(DaysWanted(ids, room, arrival, departure), t.days, RateKey(p.id, room, date, baseOccupancy));
    FilterFilter(SeasonsWanted(ids, room), SeasonOf((p.id, room)), t.seasons);
    FilterFilter(StandardsWanted(ids, room), StandardOf((p.id, room)), t.standards);
  }

  lemma {:induction false} ChainNightSame(c: Context, d: Context, chain: seq<Plan>, date: Day)
    requires forall p :: p in chain ==> OwnNight(c, p, date) == OwnNight(d, p, date)
    ensures ChainNight(c, chain, date) == ChainNight(d, chain, date)
  {
    if chain != [] {
      assert chain[0] in chain && forall p :: p in chain[1..] ==> p in chain;
      ChainNightSame(c, d, chain[1..], date);
    }
  }

  lemma {:induction false} NightlySame(c: Context, d: Context, chain: seq<Plan>, start: Day, end: Day)
    requires forall date :: start <= date < end ==> ChainNight(c, chain, date) == ChainNight(d, chain, date)
    ensures Nightly(c, chain, start, end) == Nightly(d, chain, start, end)
    decreases end - start
  {
    if start < end {
      NightlySame(c, d, chain, start + 1, end);
    }
  }

  lemma QuoteLoadsEnough(t: PriceTables, chain: seq<Plan>, ids: set<Id>, room: Id, arrival: Day, departure: Day,
                         occupancy: nat, baseOccupancy: nat)
    requires forall p :: p in chain ==> p.id in ids
    ensures StayOf(LoadedContext(t, ids, room, arrival, departure, occupancy, baseOccupancy), chain, arrival, departure)
            == StayOf(FullContext(t, room, occupancy, baseOccupancy), chain, arrival, departure)
  {
    var c := LoadedContext(t, ids, room, arrival, departure, occupancy, baseOccupancy);
    var d := FullContext(t, room, occupancy, baseOccupancy);
    forall date | arrival <= date < departure ensures ChainNight(c, chain, date) == ChainNight(d, chain, date) {
      forall p | p in chain ensures OwnNight(c, p, date) == OwnNight(d, p, date) {
        OwnNightLoaded(t, p, ids, room, arrival, departure, occupancy, baseOccupancy, date);
      }
      ChainNightSame(c, d, chain, date);
    }
    NightlySame(c, d, chain, arrival, departure);
  }
}
