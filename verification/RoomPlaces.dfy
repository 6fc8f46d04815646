/** The places of a room: how many a party takes and which one it gets. */
module RoomPlaces {
  import opened Options

  datatype Guests = Guests(adults: nat, children: nat)

  /** A reservation in the room: its first place and its party. */
  datatype PlaceHolder = PlaceHolder(place: int, guests: Guests)

  function Max(a: int, b: int): int {
    if a > b then a else b
  }

  /** A whole-room hotel gives a party the room; otherwise a place for each person. */
  function PlacesOf(g: Guests, capacity: int, multiPlace: bool): int {
    if multiPlace then Max(1, g.adults + g.children) else Max(1, capacity)
  }

  /** The places a party of `n` sitting from `start` takes. */
  function Span(start: int, n: int): (s: set<int>)
    ensures forall p :: p in s <==> start <= p < start + n
    decreases n
  {
    if n <= 0 then {} else Span(start, n - 1) + {start + n - 1}
  }

  function Taken(others: seq<PlaceHolder>): set<int> {
    if others == [] then {}
    else Taken(others[..|others|-1]) + Span(others[|others|-1].place, PlacesOf(others[|others|-1].guests, 0, true))
  }

  /** The smallest free place from `from` on. */
  function LeastFree(taken: set<int>, from: int, capacity: int): Option<int>
    decreases capacity - from
  {
    if from > capacity then None
    else if from !in taken then Some(from)
    else LeastFree(taken, from + 1, capacity)
  }

  function Allocate(capacity: int, multiPlace: bool, guests: Guests, others: seq<PlaceHolder>): Option<int> {
    if !multiPlace then (if others == [] then Some(1) else None)
    else if capacity - |Taken(others)| < PlacesOf(guests, capacity, true) then None
    else LeastFree(Taken(others), 1, capacity)
  }

  /** The first place for a new reservation, or none: the loops over the places of each reservation and over the room. */
  method AllocatePlace(capacity: int, multiPlace: bool, guests: Guests, others: seq<PlaceHolder>) returns (place: Option<int>)
    ensures place == Allocate(capacity, multiPlace, guests, others)
  {
    if !multiPlace {
      return if others == [] then Some(1) else None;
    }
    var taken: set<int> := {};
    for i := 0 to |others|
      invariant taken == Taken(others[..i])
    {
      var o := others[i];
      var n := PlacesOf(o.guests, capacity, true);
      ghost var before := taken;
      var p := o.place;
      while p < o.place + n
        invariant o.place <= p <= o.place + n
        invariant taken == before + Span(o.place, p - o.place)
      {
        taken := taken + {p};
        p := p + 1;
      }
      assert others[..i+1][..i] == others[..i];
    }
    assert others[..|others|] == others;
    var need := PlacesOf(guests, capacity, true);
    if capacity - |taken| < need {
      return None;
    }
    var p := 1;
    while p <= capacity
      invariant LeastFree(taken, p, capacity) == LeastFree(taken, 1, capacity)
      decreases capacity - p
    {
      if p !in taken {
        return Some(p);
      }
      p := p + 1;
    }
    place := None;
  }

  // ── What the answer means ────────────────────────────────────────────────

  lemma {:induction false} SpanSize(start: int, n: nat)
    ensures |Span(start, n)| == n
  {
    if n > 0 {
      SpanSize(start, n - 1);
    }
  }

  lemma SubsetSize(a: set<int>, b: set<int>)
    requires a <= b
    ensures |a| <= |b|
    ensures |a| == |b| ==> a == b
  {
    assert b == a + (b - a) && a !! (b - a);
    assert |b| == |a| + |b - a|;
  }

  lemma {:induction false} LeastFreeMeaning(taken: set<int>, from: int, capacity: int)
    ensures match LeastFree(taken, from, capacity)
            case None => forall p :: from <= p <= capacity ==> p in taken
            case Some(p) => from <= p <= capacity && p !in taken && forall q :: from <= q < p ==> q in taken
    decreases capacity - from
  {
    if from <= capacity && from in taken {
      LeastFreeMeaning(taken, from + 1, capacity);
    }
  }

  /**
   * By places the answer is null exactly when too few places are free; otherwise
   * it is the least free place, and the whole party fits inside the room.
   */
  lemma AllocateMeaning(capacity: int, guests: Guests, others: seq<PlaceHolder>)
    ensures var taken, need := Taken(others), PlacesOf(guests, capacity, true);
            && (Allocate(capacity, true, guests, others).None? <==> capacity - |taken| < need)
            && (capacity - |taken| >= need ==>
                  var p := Allocate(capacity, true, guests, others).value;
                  && 1 <= p && p + need - 1 <= capacity
                  && p !in taken
                  && (forall q :: 1 <= q < p ==> q in taken))
  {
    var taken, need := Taken(others), PlacesOf(guests, capacity, true);
    if capacity - |taken| >= need {
      LeastFreeMeaning(taken, 1, capacity);
      if LeastFree(taken, 1, capacity).None? {
        FilledUpTo(taken, capacity);
      } else {
        FilledUpTo(taken, LeastFree(taken, 1, capacity).value - 1);
      }
    }
  }

  /** If the first `n` places are taken, at least `n` places are. */
  lemma FilledUpTo(taken: set<int>, n: nat)
    requires forall q :: 1 <= q <= n ==> q in taken
    ensures |taken| >= n
  {
    SpanSize(1, n);
    SubsetSize(Span(1, n), taken);
  }

  /** Whether a party fits, as the list of rooms for sale asks. */
  lemma RoomFitsIff(capacity: int, multiPlace: bool, guests: Guests, others: seq<PlaceHolder>)
    ensures Allocate(capacity, multiPlace, guests, others).Some?
            <==> if multiPlace then |Taken(others)| + Max(1, guests.adults + guests.children) <= capacity else others == []
  {
    AllocateMeaning(capacity, guests, others);
  }

  // ── Free, but is it one stretch? ─────────────────────────────────────────

  function FreePlaces(taken: set<int>, capacity: int): set<int> {
    set p | 1 <= p <= capacity && p !in taken
  }

  ghost predicate SpanIsFree(taken: set<int>, start: int, n: int) {
    forall q :: start <= q < start + n ==> q !in taken
  }

  /** The free places of the room follow one another. */
  ghost predicate OneStretch(taken: set<int>, capacity: int) {
    forall p, q, r :: 1 <= p < q < r <= capacity && p !in taken && r !in taken ==> q !in taken
  }

  /** Every party that is let in sits on free places only. */
  ghost predicate SeatsAreFree(capacity: int, others: seq<PlaceHolder>) {
    forall g :: Allocate(capacity, true, g, others).Some? ==>
                  SpanIsFree(Taken(others), Allocate(capacity, true, g, others).value, PlacesOf(g, capacity, true))
  }

  lemma FreeAndTaken(taken: set<int>, capacity: nat)
    requires taken <= Span(1, capacity)
    ensures |FreePlaces(taken, capacity)| == capacity - |taken|
  {
    SpanSize(1, capacity);
    assert Span(1, capacity) == taken + FreePlaces(taken, capacity);
  }

  lemma BeforeTheEnd(taken: set<int>, capacity: nat, p: int, q: int, x: int)
    requires OneStretch(taken, capacity) && 1 <= p < q <= capacity && p !in taken && q in taken
    requires forall y :: 1 <= y < p ==> y in taken
    requires 1 <= x <= capacity && x !in taken
    ensures p <= x < q
  {
  }

  /** A taken place after the first free one ends the stretch. */
  lemma StretchEnds(taken: set<int>, capacity: nat, p: int, q: int)
    requires OneStretch(taken, capacity) && 1 <= p < q <= capacity && p !in taken && q in taken
    requires forall x :: 1 <= x < p ==> x in taken
    ensures |FreePlaces(taken, capacity)| <= q - p
  {
    FreeWithin(taken, capacity, p, q);
    SizeWithin(FreePlaces(taken, capacity), p, q - p);
  }

  lemma SizeWithin(s: set<int>, start: int, n: nat)
    requires s <= Span(start, n)
    ensures |s| <= n
  {
    SpanSize(start, n);
    SubsetSize(s, Span(start, n));
  }

  lemma FreeWithin(taken: set<int>, capacity: nat, p: int, q: int)
    requires OneStretch(taken, capacity) && 1 <= p < q <= capacity && p !in taken && q in taken
    requires forall x :: 1 <= x < p ==> x in taken
    ensures FreePlaces(taken, capacity) <= Span(p, q - p)
  {
    forall x | x in FreePlaces(taken, capacity) ensures x in Span(p, q - p) {
      BeforeTheEnd(taken, capacity, p, q, x);
    }
  }

  lemma StretchSeats(capacity: nat, others: seq<PlaceHolder>, g: Guests)
    requires Taken(others) <= Span(1, capacity) && OneStretch(Taken(others), capacity)
    requires Allocate(capacity, true, g, others).Some?
    ensures SpanIsFree(Taken(others), Allocate(capacity, true, g, others).value, PlacesOf(g, capacity, true))
  {
    var taken, need, p := Taken(others), PlacesOf(g, capacity, true), Allocate(capacity, true, g, others).value;
    AllocateMeaning(capacity, g, others);
    FreeAndTaken(taken, capacity);
    forall q | p <= q < p + need ensures q !in taken {
      if q in taken {
        StretchEnds(taken, capacity, p, q);
      }
    }
  }

  /** `allocatePlace` counts free places without asking that they be adjacent: it is safe exactly when they are. */
  lemma SeatsAreFreeIff(capacity: nat, others: seq<PlaceHolder>)
    requires Taken(others) <= Span(1, capacity)
    ensures SeatsAreFree(capacity, others) <==> OneStretch(Taken(others), capacity)
  {
    var taken := Taken(others);
    if OneStretch(taken, capacity) {
      forall g | Allocate(capacity, true, g, others).Some?
        ensures SpanIsFree(taken, Allocate(capacity, true, g, others).value, PlacesOf(g, capacity, true))
      {
        StretchSeats(capacity, others, g);
      }
    }
    if SeatsAreFree(capacity, others) {
      forall p, q, r | 1 <= p < q < r <= capacity && p !in taken && r !in taken ensures q !in taken {
        SeatsAreStretch(capacity, others, p, q, r);
      }
    }
  }

  /** A party for all the free places sits on exactly those, so they follow one another. */
  lemma SeatsAreStretch(capacity: nat, others: seq<PlaceHolder>, p: int, q: int, r: int)
    requires Taken(others) <= Span(1, capacity) && SeatsAreFree(capacity, others)
    requires 1 <= p < q < r <= capacity && p !in Taken(others) && r !in Taken(others)
    ensures q !in Taken(others)
  {
    var free := FreePlaces(Taken(others), capacity);
    assert p in free && r in free;
    FreeAndTaken(Taken(others), capacity);
    var g := Guests(|free|, 0);
    AllocateMeaning(capacity, g, others);
    var start := Allocate(capacity, true, g, others).value;
    assert SpanIsFree(Taken(others), start, |free|);
    SpanSize(start, |free|);
    assert Span(start, |free|) <= free;
    SubsetSize(Span(start, |free|), free);
  }

  /** One person always gets a free place. */
  lemma OnePersonSeats(capacity: int, others: seq<PlaceHolder>, g: Guests)
    requires g.adults + g.children <= 1 && Allocate(capacity, true, g, others).Some?
    ensures SpanIsFree(Taken(others), Allocate(capacity, true, g, others).value, PlacesOf(g, capacity, true))
  {
    AllocateMeaning(capacity, g, others);
  }

  /** Three places, the middle one taken: two people are seated on places 1 and 2. */
  lemma FragmentedRoom()
    ensures var others := [PlaceHolder(2, Guests(1, 0))];
            && Allocate(3, true, Guests(2, 0), others) == Some(1)
            && !SpanIsFree(Taken(others), 1, 2)
  {
    var others := [PlaceHolder(2, Guests(1, 0))];
    assert others[..0] == [];
    assert Taken(others) == {2} by {
      assert Span(2, 1) == {2};
    }
    assert LeastFree(Taken(others), 1, 3) == Some(1);
  }

  /** A party of `n` on `start` avoids every holder exactly when it avoids the places they take. */
  lemma {:induction false} TakenMeaning(others: seq<PlaceHolder>, p: int)
    ensures p in Taken(others)
            <==> exists i :: 0 <= i < |others| && others[i].place <= p < others[i].place + PlacesOf(others[i].guests, 0, true)
  {
    if others != [] {
      var last := |others| - 1;
      TakenMeaning(others[..last], p);
      if p in Taken(others[..last]) {
        var i :| 0 <= i < last && others[..last][i].place <= p < others[..last][i].place + PlacesOf(others[..last][i].guests, 0, true);
        assert others[i] == others[..last][i];
      }
      if i :| 0 <= i < |others| && others[i].place <= p < others[i].place + PlacesOf(others[i].guests, 0, true) {
        assert i < last ==> others[..last][i] == others[i];
      }
    }
  }
}
