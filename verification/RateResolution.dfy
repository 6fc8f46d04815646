/**
 * The baseline price of a night: the covering season, else the standard price.
 * `BaselineResolver` indexes and sorts the rows once; `PlainResolve` is the rule
 * as people state it, read straight off the unindexed rows.
 */
module RateResolution {
  import opened Options
  import opened Sequences
  import opened Tariffs

  type Key = (Id, Id)

  /** What is left of a row once its dates have been settled. */
  datatype Offer = Offer(occupancy: nat, price: Cents)

  // ── Choosing by the number of guests ─────────────────────────────────────

  function FirstFor(rows: seq<Offer>, occupancy: nat): Option<Cents> {
    if rows == [] then None
    else if rows[0].occupancy == occupancy then Some(rows[0].price)
    else FirstFor(rows[1..], occupancy)
  }

  function ByOccupancy(): (Offer, Offer) -> bool {
    (a: Offer, b: Offer) => a.occupancy <= b.occupancy
  }

  function Fewest(rows: seq<Offer>): Option<Cents> {
    var sorted := Sort(ByOccupancy(), rows);
    if sorted == [] then None else Some(sorted[0].price)
  }

  /** `guests == 0` stands for an unknown number of guests. */
  function PickByOccupancy(rows: seq<Offer>, guests: nat): Option<Cents> {
    if guests > 0 then OrElse(FirstFor(rows, guests), FirstFor(rows, 0))
    else OrElse(FirstFor(rows, 0), Fewest(rows))
  }

  lemma {:induction false} FirstForMeaning(rows: seq<Offer>, occupancy: nat)
    ensures FirstFor(rows, occupancy).Some? ==> Offer(occupancy, FirstFor(rows, occupancy).value) in rows
    ensures FirstFor(rows, occupancy).None? <==> forall r :: r in rows ==> r.occupancy != occupancy
  {
    if rows != [] {
      FirstForMeaning(rows[1..], occupancy);
      assert rows[0] in rows;
      assert forall r :: r in rows <==> r == rows[0] || r in rows[1..];
    }
  }

  lemma FewestMeaning(rows: seq<Offer>)
    ensures Fewest(rows).None? <==> rows == []
    ensures Fewest(rows).Some? ==> exists r :: r in rows && r.price == Fewest(rows).value
                                               && forall x :: x in rows ==> r.occupancy <= x.occupancy
  {
    SortSorts(ByOccupancy(), rows);
    SortMembers(ByOccupancy(), rows);
    var sorted := Sort(ByOccupancy(), rows);
    if sorted != [] {
      assert sorted[0] in rows;
      forall x | x in rows ensures sorted[0].occupancy <= x.occupancy {
        assert x in sorted;
      }
    }
  }

  /** The rows the rule may take a price from: never another, known number of guests. */
  ghost predicate Admissible(r: Offer, guests: nat) {
    guests > 0 ==> r.occupancy == guests || r.occupancy == 0
  }

  /** For this party a row for `o` guests is taken before one for `x`: the exact number, then any number; unknown, any number, then the fewest. */
  predicate Prefers(o: nat, x: nat, guests: nat) {
    if guests > 0 then o == guests || (o == 0 && x != guests) else o == 0 || (x != 0 && o <= x)
  }

  /**
   * The price is taken from an admissible row that no other row goes before; nothing is found only when no
   * admissible row exists.
   */
  lemma PickMeaning(rows: seq<Offer>, guests: nat)
    ensures var p := PickByOccupancy(rows, guests);
            && (p.None? <==> forall r :: r in rows ==> !Admissible(r, guests))
            && (p.Some? ==> exists r :: r in rows && Admissible(r, guests) && r.price == p.value
                                        && forall x :: x in rows ==> Prefers(r.occupancy, x.occupancy, guests))
  {
    FirstForMeaning(rows, guests);
    FirstForMeaning(rows, 0);
    FewestMeaning(rows);
  }

  lemma {:induction false} FirstForIs(rows: seq<Offer>, i: nat)
    requires i < |rows| && forall j :: 0 <= j < i ==> rows[j].occupancy != rows[i].occupancy
    ensures FirstFor(rows, rows[i].occupancy) == Some(rows[i].price)
  {
    if i > 0 {
      FirstForIs(rows[1..], i - 1);
    }
  }

  /** Of the rows that no other goes before, the one listed first decides. */
  lemma FirstPreferred(rows: seq<Offer>, i: nat, guests: nat)
    requires i < |rows| && Admissible(rows[i], guests)
    requires forall j :: 0 <= j < |rows| ==> Prefers(rows[i].occupancy, rows[j].occupancy, guests)
    requires forall j :: 0 <= j < i ==> rows[j].occupancy != rows[i].occupancy
    ensures PickByOccupancy(rows, guests) == Some(rows[i].price)
  {
    FirstForIs(rows, i);
    FirstForMeaning(rows, guests);
    FirstForMeaning(rows, 0);
    if guests == 0 && rows[i].occupancy != 0 {
      SortHead(ByOccupancy(), rows, i);
    }
  }

  /** The row that goes before all others decides, when no row for the same number has another price. */
  lemma PreferredIsPicked(rows: seq<Offer>, o: Offer, guests: nat)
    requires o in rows && Admissible(o, guests)
    requires forall x :: x in rows ==> Prefers(o.occupancy, x.occupancy, guests) && (x.occupancy == o.occupancy ==> x.price == o.price)
    ensures PickByOccupancy(rows, guests) == Some(o.price)
  {
    PickMeaning(rows, guests);
  }

  /** Rows with the same guest count carry the same price. */
  ghost predicate OnePricePerOccupancy(rows: seq<Offer>) {
    forall x, y :: x in rows && y in rows && x.occupancy == y.occupancy ==> x.price == y.price
  }

  lemma FirstForSame(a: seq<Offer>, b: seq<Offer>, occupancy: nat)
    requires OnePricePerOccupancy(a) && (forall x :: x in a <==> x in b)
    ensures FirstFor(a, occupancy) == FirstFor(b, occupancy)
  {
    FirstForMeaning(a, occupancy);
    FirstForMeaning(b, occupancy);
  }

  /** The choice does not depend on the order of the rows. */
  lemma PickSame(a: seq<Offer>, b: seq<Offer>, guests: nat)
    requires OnePricePerOccupancy(a) && (forall x :: x in a <==> x in b)
    ensures PickByOccupancy(a, guests) == PickByOccupancy(b, guests)
  {
    FirstForSame(a, b, guests);
    FirstForSame(a, b, 0);
    FewestMeaning(a);
    FewestMeaning(b);
    assert b != [] ==> b[0] in b;
    if Fewest(a).Some? {
      assert a[0] in b;
      var x :| x in a && x.price == Fewest(a).value && forall z :: z in a ==> x.occupancy <= z.occupancy;
      var y :| y in b && y.price == Fewest(b).value && forall z :: z in b ==> y.occupancy <= z.occupancy;
      assert x.occupancy == y.occupancy;
    }
  }

  // ── Ranking seasons ──────────────────────────────────────────────────────

  predicate Covers(s: Season, day: Day) {
    s.dateFrom <= day <= s.dateTo
  }

  function Covering(day: Day): Season -> bool {
    (s: Season) => Covers(s, day)
  }

  function SeasonOf(k: Key): Season -> bool {
    (s: Season) => (s.plan, s.room) == k
  }

  function StandardOf(k: Key): StandardRate -> bool {
    (s: StandardRate) => (s.plan, s.room) == k
  }

  predicate SameWindow(a: Season, b: Season) {
    a.dateFrom == b.dateFrom && a.dateTo == b.dateTo && a.sortOrder == b.sortOrder
  }

  function WindowOf(top: Season): Season -> bool {
    (s: Season) => SameWindow(s, top)
  }

  function SeasonOffer(): Season -> Offer {
    (s: Season) => Offer(s.occupancy, s.price)
  }

  function StandardOffer(): StandardRate -> Offer {
    (s: StandardRate) => Offer(s.occupancy, s.price)
  }

  /** `a` comes no later than `b`: a later start, then a higher sort order. */
  predicate Ranks(a: Season, b: Season) {
    a.dateFrom > b.dateFrom || (a.dateFrom == b.dateFrom && a.sortOrder >= b.sortOrder)
  }

  function ByRank(): (Season, Season) -> bool {
    (a: Season, b: Season) => Ranks(a, b)
  }

  // ── The rule, read off the rows ──────────────────────────────────────────

  /** The covering season of the highest rank, the first listed when several tie. */
  function Top(seasons: seq<Season>, day: Day): (top: Option<Season>) {
    if seasons == [] then None
    else
      var rest := Top(seasons[1..], day);
      if Covers(seasons[0], day) && (rest.None? || Ranks(seasons[0], rest.value)) then Some(seasons[0]) else rest
  }

  /** What the seasons of one plan and category say about a day. */
  function SeasonPrice(seasons: seq<Season>, day: Day, guests: nat): Option<Cents> {
    match Top(seasons, day)
    case None => None
    case Some(top) => PickByOccupancy(Map(SeasonOffer(), Filter(WindowOf(top), seasons)), guests)
  }

  function StandardPrice(standards: seq<StandardRate>, guests: nat): Option<Cents> {
    PickByOccupancy(Map(StandardOffer(), standards), guests)
  }

  function PlainResolve(seasons: seq<Season>, standards: seq<StandardRate>, k: Key, day: Day, guests: nat): Option<Cents> {
    OrElse(SeasonPrice(Filter(SeasonOf(k), seasons), day, guests),
           StandardPrice(Filter(StandardOf(k), standards), guests))
  }

  /** The season chosen covers the day and no covering season outranks it. */
  lemma {:induction false} TopMeaning(seasons: seq<Season>, day: Day)
    ensures var top := Top(seasons, day);
            && (top.None? <==> forall s :: s in seasons ==> !Covers(s, day))
            && (top.Some? ==> top.value in seasons && Covers(top.value, day)
                              && forall s :: s in seasons && Covers(s, day) ==> Ranks(top.value, s))
  {
    if seasons != [] {
      TopMeaning(seasons[1..], day);
      assert forall s :: s in seasons <==> s == seasons[0] || s in seasons[1..];
    }
  }

  // ── What the rows say about a day ────────────────────────────────────────

  /** The season is of the plan and category and its window, ends included, has the day. */
  predicate Speaks(s: Season, k: Key, day: Day) {
    s.plan == k.0 && s.room == k.1 && s.dateFrom <= day && day <= s.dateTo
  }

  /** Of the seasons that speak none starts later than `s`, none starting with it has a higher sort order, and one that ties has its window. */
  ghost predicate Foremost(seasons: seq<Season>, k: Key, day: Day, s: Season) {
    && s in seasons && Speaks(s, k, day)
    && forall x :: x in seasons && Speaks(x, k, day) ==>
         || x.dateFrom < s.dateFrom
         || (x.dateFrom == s.dateFrom && (x.sortOrder < s.sortOrder || (x.sortOrder == s.sortOrder && x.dateTo == s.dateTo)))
  }

  /** The rows of the plan and category that share the window and sort order of `s`. */
  ghost predicate Beside(seasons: seq<Season>, s: Season, x: Season) {
    && x in seasons && x.plan == s.plan && x.room == s.room
    && x.dateFrom == s.dateFrom && x.dateTo == s.dateTo && x.sortOrder == s.sortOrder
  }

  /** `s` is the row of the foremost window this party is charged by. */
  ghost predicate SeasonDecides(seasons: seq<Season>, k: Key, day: Day, guests: nat, s: Season) {
    && Foremost(seasons, k, day, s)
    && (guests > 0 ==> s.occupancy == guests || s.occupancy == 0)
    && forall x :: Beside(seasons, s, x) ==>
         Prefers(s.occupancy, x.occupancy, guests) && (x.occupancy == s.occupancy ==> x.price == s.price)
  }

  /** No season speaks, or the foremost window has rows for other parties only. */
  ghost predicate NoSeasonDecides(seasons: seq<Season>, k: Key, day: Day, guests: nat) {
    || (forall x :: x in seasons ==> !Speaks(x, k, day))
    || (guests > 0 && exists s :: Foremost(seasons, k, day, s)
                                  && forall x :: Beside(seasons, s, x) ==> x.occupancy != guests && x.occupancy != 0)
  }

  /** `r` is the standard row this party is charged by. */
  ghost predicate StandardDecides(standards: seq<StandardRate>, k: Key, guests: nat, r: StandardRate) {
    && r in standards && r.plan == k.0 && r.room == k.1
    && (guests > 0 ==> r.occupancy == guests || r.occupancy == 0)
    && forall x :: x in standards && x.plan == k.0 && x.room == k.1 ==>
         Prefers(r.occupancy, x.occupancy, guests) && (x.occupancy == r.occupancy ==> x.price == r.price)
  }

  ghost predicate NoStandardDecides(standards: seq<StandardRate>, k: Key, guests: nat) {
    forall x :: x in standards && x.plan == k.0 && x.room == k.1 ==> guests > 0 && x.occupancy != guests && x.occupancy != 0
  }

  lemma ForemostIsTop(seasons: seq<Season>, k: Key, day: Day, s: Season)
    requires Foremost(seasons, k, day, s)
    ensures var mine := Filter(SeasonOf(k), seasons);
            Top(mine, day).Some? && SameWindow(Top(mine, day).value, s)
  {
    var mine := Filter(SeasonOf(k), seasons);
    TopMeaning(mine, day);
    assert s in mine;
    var top := Top(mine, day).value;
    assert Speaks(top, k, day) && Ranks(top, s);
  }

  lemma WindowRows(seasons: seq<Season>, k: Key, day: Day, s: Season)
    requires Foremost(seasons, k, day, s)
    ensures var mine := Filter(SeasonOf(k), seasons);
            && Top(mine, day).Some?
            && forall o :: o in Map(SeasonOffer(), Filter(WindowOf(Top(mine, day).value), mine))
                           <==> exists x :: Beside(seasons, s, x) && o == Offer(x.occupancy, x.price)
  {
    ForemostIsTop(seasons, k, day, s);
    var mine := Filter(SeasonOf(k), seasons);
    var window := Filter(WindowOf(Top(mine, day).value), mine);
    OfferMembers(window);
    forall x ensures x in window <==> Beside(seasons, s, x) {
    }
  }

  /** The season that starts last decides, then the higher sort order; within its window the row for the party. */
  lemma SeasonIsCharged(seasons: seq<Season>, standards: seq<StandardRate>, k: Key, day: Day, guests: nat, s: Season)
    requires SeasonDecides(seasons, k, day, guests, s)
    ensures PlainResolve(seasons, standards, k, day, guests) == Some(s.price)
  {
    WindowRows(seasons, k, day, s);
    var mine := Filter(SeasonOf(k), seasons);
    var rows := Map(SeasonOffer(), Filter(WindowOf(Top(mine, day).value), mine));
    assert Beside(seasons, s, s);
    PreferredIsPicked(rows, Offer(s.occupancy, s.price), guests);
  }

  lemma SeasonIsSilent(seasons: seq<Season>, k: Key, day: Day, guests: nat)
    requires NoSeasonDecides(seasons, k, day, guests)
    ensures SeasonPrice(Filter(SeasonOf(k), seasons), day, guests).None?
  {
    var mine := Filter(SeasonOf(k), seasons);
    TopMeaning(mine, day);
    if Top(mine, day).Some? {
      assert Speaks(Top(mine, day).value, k, day);
      var s :| Foremost(seasons, k, day, s) && forall x :: Beside(seasons, s, x) ==> x.occupancy != guests && x.occupancy != 0;
      WindowRows(seasons, k, day, s);
      PickMeaning(Map(SeasonOffer(), Filter(WindowOf(Top(mine, day).value), mine)), guests);
    }
  }

  /** Only when no season decides does the standard price, by the same choice of the party. */
  lemma StandardIsCharged(seasons: seq<Season>, standards: seq<StandardRate>, k: Key, day: Day, guests: nat, r: StandardRate)
    requires NoSeasonDecides(seasons, k, day, guests) && StandardDecides(standards, k, guests, r)
    ensures PlainResolve(seasons, standards, k, day, guests) == Some(r.price)
  {
    SeasonIsSilent(seasons, k, day, guests);
    var mine := Filter(StandardOf(k), standards);
    StandardMembers(mine);
    PreferredIsPicked(Map(StandardOffer(), mine), Offer(r.occupancy, r.price), guests);
  }

  lemma NothingIsCharged(seasons: seq<Season>, standards: seq<StandardRate>, k: Key, day: Day, guests: nat)
    requires NoSeasonDecides(seasons, k, day, guests) && NoStandardDecides(standards, k, guests)
    ensures PlainResolve(seasons, standards, k, day, guests).None?
  {
    SeasonIsSilent(seasons, k, day, guests);
    var mine := Filter(StandardOf(k), standards);
    StandardMembers(mine);
    PickMeaning(Map(StandardOffer(), mine), guests);
  }

  // ── The index refines the rule ───────────────────────────────────────────

  lemma RankIsPreorder()
    ensures TotalPreorder(ByRank())
  {
  }

  /** The first covering row of the sorted list is the season of the rule. */
  lemma {:induction false} SortedHeadIsTop(seasons: seq<Season>, day: Day)
    ensures var c := Filter(Covering(day), Sort(ByRank(), seasons));
            Top(seasons, day) == if c == [] then None else Some(c[0])
  {
    RankIsPreorder();
    FilterSort(ByRank(), Covering(day), seasons);
    if seasons != [] {
      SortedHeadIsTop(seasons[1..], day);
      FilterSort(ByRank(), Covering(day), seasons[1..]);
    }
  }

  /** Rows of one window keep their listed order through sorting and filtering. */
  lemma WindowUnsorted(seasons: seq<Season>, top: Season, day: Day)
    requires Covers(top, day)
    ensures Filter(WindowOf(top), Filter(Covering(day), Sort(ByRank(), seasons))) == Filter(WindowOf(top), seasons)
  {
    RankIsPreorder();
    var sorted := Sort(ByRank(), seasons);
    FilterFilter(Covering(day), WindowOf(top), sorted);
    FilterSort(ByRank(), WindowOf(top), seasons);
    SortTies(ByRank(), Filter(WindowOf(top), seasons));
  }

  /** `Map.get(k) ?? []`. */
  function ListAt<T>(m: map<Key, seq<T>>, k: Key): seq<T> {
    if k in m then m[k] else []
  }

  ghost predicate GroupsSeasons(m: map<Key, seq<Season>>, seasons: seq<Season>) {
    forall k: Key :: ListAt(m, k) == Filter(SeasonOf(k), seasons)
  }

  ghost predicate RanksSeasons(m: map<Key, seq<Season>>, seasons: seq<Season>) {
    forall k: Key :: ListAt(m, k) == Sort(ByRank(), Filter(SeasonOf(k), seasons))
  }

  ghost predicate GroupsStandards(m: map<Key, seq<StandardRate>>, standards: seq<StandardRate>) {
    forall k: Key :: ListAt(m, k) == Filter(StandardOf(k), standards)
  }

  lemma SeasonAdded(m: map<Key, seq<Season>>, seasons: seq<Season>, s: Season)
    requires GroupsSeasons(m, seasons)
    ensures GroupsSeasons(m[(s.plan, s.room) := ListAt(m, (s.plan, s.room)) + [s]], seasons + [s])
  {
    forall k: Key
      ensures ListAt(m[(s.plan, s.room) := ListAt(m, (s.plan, s.room)) + [s]], k) == Filter(SeasonOf(k), seasons + [s])
    {
      FilterConcat(SeasonOf(k), seasons, [s]);
      assert ListAt(m, k) == Filter(SeasonOf(k), seasons);
    }
  }

  lemma StandardAdded(m: map<Key, seq<StandardRate>>, standards: seq<StandardRate>, s: StandardRate)
    requires GroupsStandards(m, standards)
    ensures GroupsStandards(m[(s.plan, s.room) := ListAt(m, (s.plan, s.room)) + [s]], standards + [s])
  {
    forall k: Key
      ensures ListAt(m[(s.plan, s.room) := ListAt(m, (s.plan, s.room)) + [s]], k) == Filter(StandardOf(k), standards + [s])
    {
      FilterConcat(StandardOf(k), standards, [s]);
      assert ListAt(m, k) == Filter(StandardOf(k), standards);
    }
  }

  class BaselineResolver {
    var seasonsByKey: map<Key, seq<Season>>
    var standardByKey: map<Key, seq<StandardRate>>
    /** The rows it was built from. */
    ghost const seasons: seq<Season>
    ghost const standards: seq<StandardRate>

    ghost predicate Valid()
      reads this
    {
      RanksSeasons(seasonsByKey, seasons) && GroupsStandards(standardByKey, standards)
    }

    constructor (seasons: seq<Season>, standards: seq<StandardRate>)
      ensures Valid() && this.seasons == seasons && this.standards == standards
    {
      this.seasons, this.standards := seasons, standards;
      seasonsByKey, standardByKey := map[], map[];
      new;
      for i := 0 to |seasons|
        invariant GroupsSeasons(seasonsByKey, seasons[..i]) && standardByKey == map[]
      {
        var s := seasons[i];
        SeasonAdded(seasonsByKey, seasons[..i], s);
        seasonsByKey := seasonsByKey[(s.plan, s.room) := ListAt(seasonsByKey, (s.plan, s.room)) + [s]];
        assert seasons[..i+1] == seasons[..i] + [s];
      }
      assert seasons[..|seasons|] == seasons;
      SortLists();
      for i := 0 to |standards|
        invariant RanksSeasons(seasonsByKey, seasons)
        invariant GroupsStandards(standardByKey, standards[..i])
      {
        var s := standards[i];
        StandardAdded(standardByKey, standards[..i], s);
        standardByKey := standardByKey[(s.plan, s.room) := ListAt(standardByKey, (s.plan, s.room)) + [s]];
        assert standards[..i+1] == standards[..i] + [s];
      }
      assert standards[..|standards|] == standards;
    }

    /** Sorts every season list in place, most specific season first. */
    method SortLists()
      requires GroupsSeasons(seasonsByKey, seasons)
      modifies this`seasonsByKey
      ensures RanksSeasons(seasonsByKey, seasons)
    {
      ghost var grouped := seasonsByKey;
      var unsorted := seasonsByKey.Keys;
      while unsorted != {}
        invariant unsorted <= seasonsByKey.Keys == grouped.Keys
        invariant forall k: Key :: ListAt(seasonsByKey, k) ==
                                   if k in unsorted then ListAt(grouped, k) else Sort(ByRank(), ListAt(grouped, k))
        decreases unsorted
      {
        var key :| key in unsorted;
        seasonsByKey := seasonsByKey[key := Sort(ByRank(), seasonsByKey[key])];
        unsorted := unsorted - {key};
      }
    }

    /** The indexed lookup answers as the rule does. */
    function Resolve(plan: Id, room: Id, day: Day, guests: nat): (price: Option<Cents>)
      requires Valid()
      reads this
      ensures price == PlainResolve(seasons, standards, (plan, room), day, guests)
    {
      var covering := Filter(Covering(day), ListAt(seasonsByKey, (plan, room)));
      IndexedSeasonPrice(Filter(SeasonOf((plan, room)), seasons), day, guests);
      var hit := FromCovering(covering, guests);
      if hit.Some? then hit
      else PickByOccupancy(Map(StandardOffer(), ListAt(standardByKey, (plan, room))), guests)
    }
  }

  /** The price of the first covering season's window. */
  function FromCovering(covering: seq<Season>, guests: nat): Option<Cents> {
    if covering == [] then None
    else PickByOccupancy(Map(SeasonOffer(), Filter(WindowOf(covering[0]), covering)), guests)
  }

  lemma IndexedSeasonPrice(seasons: seq<Season>, day: Day, guests: nat)
    ensures FromCovering(Filter(Covering(day), Sort(ByRank(), seasons)), guests) == SeasonPrice(seasons, day, guests)
  {
    SortedHeadIsTop(seasons, day);
    var c := Filter(Covering(day), Sort(ByRank(), seasons));
    if c != [] {
      assert c[0] in c;
      WindowUnsorted(seasons, c[0], day);
    }
  }

  // ── What the answer does not depend on ───────────────────────────────────

  /** One price per window and guest count, and no two windows tie on start and sort order. */
  ghost predicate Settled(seasons: seq<Season>) {
    forall x, y :: x in seasons && y in seasons && x.dateFrom == y.dateFrom && x.sortOrder == y.sortOrder ==>
      && x.dateTo == y.dateTo
      && (x.occupancy == y.occupancy ==> x.price == y.price)
  }

  ghost predicate OneStandardPrice(standards: seq<StandardRate>) {
    forall x, y :: x in standards && y in standards && x.occupancy == y.occupancy ==> x.price == y.price
  }

  /** Seasons with the same members give the same price, whatever order they are listed in. */
  lemma SeasonOrderFree(a: seq<Season>, b: seq<Season>, day: Day, guests: nat)
    requires Settled(a) && (forall x :: x in a <==> x in b)
    ensures SeasonPrice(a, day, guests) == SeasonPrice(b, day, guests)
  {
    TopMeaning(a, day);
    TopMeaning(b, day);
    if Top(a, day).Some? {
      var x, y := Top(a, day).value, Top(b, day).value;
      assert Ranks(x, y) && Ranks(y, x);
      assert SameWindow(x, y);
      OffersSame(Filter(WindowOf(x), a), Filter(WindowOf(y), b), guests);
    }
  }

  lemma OffersSame(a: seq<Season>, b: seq<Season>, guests: nat)
    requires forall x :: x in a <==> x in b
    requires forall x, y :: x in a && y in a && x.occupancy == y.occupancy ==> x.price == y.price
    ensures PickByOccupancy(Map(SeasonOffer(), a), guests) == PickByOccupancy(Map(SeasonOffer(), b), guests)
  {
    var oa, ob := Map(SeasonOffer(), a), Map(SeasonOffer(), b);
    OfferMembers(a);
    OfferMembers(b);
    PickSame(oa, ob, guests);
  }

  lemma OfferMembers(a: seq<Season>)
    ensures forall o :: o in Map(SeasonOffer(), a) <==> exists x :: x in a && o == Offer(x.occupancy, x.price)
  {
    var oa := Map(SeasonOffer(), a);
    forall o ensures o in oa <==> exists x :: x in a && o == Offer(x.occupancy, x.price) {
      if o in oa {
        var i :| 0 <= i < |oa| && oa[i] == o;
        assert a[i] in a;
      }
      if x :| x in a && o == Offer(x.occupancy, x.price) {
        var i :| 0 <= i < |a| && a[i] == x;
        assert oa[i] == o;
      }
    }
  }

  lemma StandardMembers(a: seq<StandardRate>)
    ensures forall o :: o in Map(StandardOffer(), a) <==> exists x :: x in a && o == Offer(x.occupancy, x.price)
  {
    var oa := Map(StandardOffer(), a);
    forall o ensures o in oa <==> exists x :: x in a && o == Offer(x.occupancy, x.price) {
      if o in oa {
        var i :| 0 <= i < |oa| && oa[i] == o;
        assert a[i] in a;
      }
      if x :| x in a && o == Offer(x.occupancy, x.price) {
        var i :| 0 <= i < |a| && a[i] == x;
        assert oa[i] == o;
      }
    }
  }

  lemma StandardOrderFree(a: seq<StandardRate>, b: seq<StandardRate>, guests: nat)
    requires OneStandardPrice(a) && (forall x :: x in a <==> x in b)
    ensures StandardPrice(a, guests) == StandardPrice(b, guests)
  {
    StandardMembers(a);
    StandardMembers(b);
    PickSame(Map(StandardOffer(), a), Map(StandardOffer(), b), guests);
  }

  /** The resolved price does not depend on the order the tables are read in. */
  lemma ResolveOrderFree(a: seq<Season>, b: seq<Season>, sa: seq<StandardRate>, sb: seq<StandardRate>,
                         k: Key, day: Day, guests: nat)
    requires (forall x :: x in a <==> x in b) && (forall x :: x in sa <==> x in sb)
    requires Settled(Filter(SeasonOf(k), a)) && OneStandardPrice(Filter(StandardOf(k), sa))
    ensures PlainResolve(a, sa, k, day, guests) == PlainResolve(b, sb, k, day, guests)
  {
    SeasonOrderFree(Filter(SeasonOf(k), a), Filter(SeasonOf(k), b), day, guests);
    StandardOrderFree(Filter(StandardOf(k), sa), Filter(StandardOf(k), sb), guests);
  }

  /** The seasons a stay query loads: those touching the stay. */
  function Touching(checkIn: Day, checkOut: Day): Season -> bool {
    (s: Season) => s.dateFrom <= checkOut && s.dateTo >= checkIn
  }

  lemma {:induction false} TopTouching(seasons: seq<Season>, checkIn: Day, checkOut: Day, day: Day)
    requires checkIn <= day <= checkOut
    ensures Top(Filter(Touching(checkIn, checkOut), seasons), day) == Top(seasons, day)
  {
    if seasons != [] {
      TopTouching(seasons[1..], checkIn, checkOut, day);
      var f := Filter(Touching(checkIn, checkOut), seasons);
      if Touching(checkIn, checkOut)(seasons[0]) {
        assert f[1..] == Filter(Touching(checkIn, checkOut), seasons[1..]);
      }
    }
  }

  /** Loading only the seasons that touch the stay changes no night of it. */
  lemma TouchingSuffices(seasons: seq<Season>, standards: seq<StandardRate>, k: Key,
                         checkIn: Day, checkOut: Day, day: Day, guests: nat)
    requires checkIn <= day <= checkOut
    ensures PlainResolve(Filter(Touching(checkIn, checkOut), seasons), standards, k, day, guests)
            == PlainResolve(seasons, standards, k, day, guests)
  {
    var touching := Touching(checkIn, checkOut);
    var mine := Filter(SeasonOf(k), seasons);
    FilterSwap(touching, SeasonOf(k), seasons);
    TopTouching(mine, checkIn, checkOut, day);
    TopMeaning(mine, day);
    if Top(mine, day).Some? {
      FilterFilter(touching, WindowOf(Top(mine, day).value), mine);
    }
  }
}
