/** Hotels that sell a room by places: which steps keep two parties off one place. */
module ReservationPlaces {
  import opened Options
  import opened Sequences
  import opened KeyedRows
  import opened Tariffs
  import opened RoomPlaces
  import opened ReservationBook
  import opened ReservationSafety

  predicate OnePerson(r: Row) {
    r.guests.adults + r.guests.children <= 1
  }

  ghost predicate AllSingle(b: Book) {
    forall r :: r in b.rows ==> OnePerson(r)
  }

  /** One person, or a room whose free places on those nights follow one another. */
  ghost predicate Seatable(b: Book, row: Row) {
    || OnePerson(row)
    || (&& row.room in b.rooms && b.rooms[row.room].capacity >= 0
        && Taken(Rivals(b, row)) <= Span(1, b.rooms[row.room].capacity)
        && OneStretch(Taken(Rivals(b, row)), b.rooms[row.room].capacity))
  }

  lemma AllocatedClears(b: Book, row: Row)
    requires b.multiPlace && Seatable(b, row) && row.room in b.rooms
    requires Allocate(b.rooms[row.room].capacity, true, row.guests, Rivals(b, row)) == Some(row.place)
    ensures Clear(b, row)
  {
    if OnePerson(row) {
      OnePersonSeats(b.rooms[row.room].capacity, Rivals(b, row), row.guests);
    } else {
      StretchSeats(b.rooms[row.room].capacity, Rivals(b, row), row.guests);
    }
    FreeSpanClears(b, row);
  }

  /** The step looks for a new place: a creation, a change of room, or an edit whose own place is no longer free. */
  predicate SeatsAnew(b: Book, e: Event) {
    || e.Create?
    || (&& e.Update? && RowAt(b, e.id).Some? && AsksForPlace(e.edit) && e.edit.place.None?
        && var cur := RowAt(b, e.id).value;
        var room := Or(e.edit.room, cur.room);
        && room in b.rooms
        && (room != cur.room
            || !SpanFree(cur.place, PlacesOf(NewGuests(cur, e.edit), 0, true), b.rooms[room].capacity, true,
                         Others(b.rows, room, Or(e.edit.checkIn, cur.checkIn), Or(e.edit.checkOut, cur.checkOut), Some(cur.id)))))
  }

  /** A live reservation holds one of the row's places on one of its nights. */
  ghost predicate PlacesHeld(b: Book, row: Row) {
    exists y :: y in b.rows && y.id != row.id && y.room == row.room && Live(y.status) && Meets(row, y)
                && !Apart(row.place, PlacesOf(row.guests, 0, true), HolderOf()(y))
  }

  /** The places the party would sit on, from the least free one. */
  ghost predicate SeatsTaken(b: Book, row: Row) {
    Live(row.status) && !SpanIsFree(Taken(Rivals(b, row)), row.place, PlacesOf(row.guests, 0, true))
  }

  lemma PlacesHeldIff(b: Book, row: Row)
    requires b.multiPlace
    ensures Clear(b, row) <==> !(Live(row.status) && PlacesHeld(b, row))
  {
    if !Clear(b, row) {
      var y :| y in b.rows && Clash(b.multiPlace, row, y);
      assert PlacesHeld(b, row);
    }
    if Live(row.status) && PlacesHeld(b, row) {
      var y :| y in b.rows && y.id != row.id && y.room == row.room && Live(y.status) && Meets(row, y)
               && !Apart(row.place, PlacesOf(row.guests, 0, true), HolderOf()(y));
      assert Clash(b.multiPlace, row, y);
    }
  }

  /** A live row is clear exactly when none of its places is taken. */
  lemma FreeSpanClearIff(b: Book, row: Row)
    requires b.multiPlace
    ensures Clear(b, row) <==> !SeatsTaken(b, row)
  {
    if Live(row.status) {
      if SpanIsFree(Taken(Rivals(b, row)), row.place, PlacesOf(row.guests, 0, true)) {
        FreeSpanClears(b, row);
      } else {
        TakenSpanClashes(b, row);
      }
    }
  }

  lemma TakenSpanClashes(b: Book, row: Row)
    requires b.multiPlace && Live(row.status) && !SpanIsFree(Taken(Rivals(b, row)), row.place, PlacesOf(row.guests, 0, true))
    ensures !Clear(b, row)
  {
    var others := Rivals(b, row);
    var kept := Filter(Overlapping(row.room, row.checkIn, row.checkOut, Some(row.id)), b.rows);
    var q :| row.place <= q < row.place + PlacesOf(row.guests, 0, true) && q in Taken(others);
    TakenMeaning(others, q);
    var i :| 0 <= i < |others| && others[i].place <= q < others[i].place + PlacesOf(others[i].guests, 0, true);
    assert kept[i] in kept && others[i] == HolderOf()(kept[i]);
    assert Clash(b.multiPlace, row, kept[i]);
  }

  lemma CreatePlacesIff(b: Book, id: Id, dto: CreateDto)
    requires UniqueIds(b) && NoClash(b) && b.multiPlace && CreateDecision(b, id, dto).Write?
    ensures NoClash(Apply(b, CreateDecision(b, id, dto)).0) <==> !SeatsTaken(b, CreateDecision(b, id, dto).row)
  {
    WriteClearIff(b, CreateDecision(b, id, dto));
    FreeSpanClearIff(b, CreateDecision(b, id, dto).row);
  }

  lemma UpdatePlacesIff(b: Book, id: Id, dto: UpdateDto, fromChannel: bool, at: Time)
    requires UniqueIds(b) && NoClash(b) && b.multiPlace && UpdateDecision(b, id, dto, fromChannel, at).Write?
    ensures var e, d := Update(id, dto, fromChannel, at), UpdateDecision(b, id, dto, fromChannel, at);
            NoClash(Apply(b, d).0) <==> !((RevivesUnchecked(b, e) && PlacesHeld(b, d.row)) || (SeatsAnew(b, e) && SeatsTaken(b, d.row)))
  {
    var e, d := Update(id, dto, fromChannel, at), UpdateDecision(b, id, dto, fromChannel, at);
    FindMeaning(IdOf(), b.rows, id);
    var cur := RowAt(b, id).value;
    WriteClearIff(b, d);
    if !AsksForPlace(dto) {
      if RevivesUnchecked(b, e) {
        PlacesHeldIff(b, d.row);
      } else {
        SameStayClears(b, cur, d.row);
      }
    } else if SeatsAnew(b, e) {
      FreeSpanClearIff(b, d.row);
    } else {
      KeptPlaceClears(b, cur, dto, at, e);
    }
  }

  lemma KeptPlaceClears(b: Book, cur: Row, dto: UpdateDto, at: Time, e: Event)
    requires b.multiPlace && AsksForPlace(dto) && PlaceFor(b, cur, dto).PlaceAt?
    requires e.Update? && e.edit == dto && RowAt(b, e.id) == Some(cur) && !SeatsAnew(b, e)
    ensures Clear(b, EditedRow(b, cur, dto, PlaceFor(b, cur, dto).place, at))
  {
    var row := EditedRow(b, cur, dto, PlaceFor(b, cur, dto).place, at);
    var capacity, need := b.rooms[row.room].capacity, PlacesOf(row.guests, 0, true);
    assert row.id == cur.id && row.room == Or(dto.room, cur.room) && row.guests == NewGuests(cur, dto);
    assert SpanFree(row.place, need, capacity, true, Rivals(b, row));
    SpanFreeClears(b, row, need, capacity);
  }

  /**
   * Sold by places, a step other than a swap puts two parties on one place if and only if it is accepted and
   * either revives a dead row over a taken place without asking for one, or looks for a new place and the
   * party's span from the least free place is not free.
   */
  lemma PlacesStepIff(b: Book, e: Event)
    requires UniqueIds(b) && NoClash(b) && b.multiPlace && !e.Swap?
    ensures NoClash(Step(b, e).0) <==>
            !(Step(b, e).1.Done? &&
              ((RevivesUnchecked(b, e) && PlacesHeld(b, Step(b, e).1.row)) || (SeatsAnew(b, e) && SeatsTaken(b, Step(b, e).1.row))))
  {
    match e
    case Create(id, dto) =>
      if CreateDecision(b, id, dto).Write? {
        CreatePlacesIff(b, id, dto);
      }
    case Update(id, dto, fromChannel, at) =>
      if UpdateDecision(b, id, dto, fromChannel, at).Write? {
        UpdatePlacesIff(b, id, dto, fromChannel, at);
      }
    case RecordFact(id, fact, at) =>
      var d := FactDecision(b, id, fact, at);
      if d.Write? && IsFact(fact) {
        FindMeaning(IdOf(), b.rows, id);
        SameStayClears(b, RowAt(b, id).value, d.row);
        WriteClearIff(b, d);
      }
    case Cancel(id, reason, fromChannel) =>
      var d := CancelDecision(b, id, reason, fromChannel);
      if d.Write? {
        FindMeaning(IdOf(), b.rows, id);
        SameStayClears(b, RowAt(b, id).value, d.row);
        WriteClearIff(b, d);
      }
  }

  /** A single guest, or a party for which the room's free places follow one another, is never seated over anybody. */
  lemma SeatableIsSafe(b: Book, e: Event)
    requires UniqueIds(b) && NoClash(b) && b.multiPlace && !e.Swap? && !RevivesUnchecked(b, e)
    requires Step(b, e).1.Done? && SeatsAnew(b, e) ==> Seatable(b, Step(b, e).1.row)
    ensures NoClash(Step(b, e).0)
  {
    PlacesStepIff(b, e);
    if Step(b, e).1.Done? && SeatsAnew(b, e) {
      SeatedRow(b, e);
      AllocatedClears(b, Step(b, e).1.row);
      FreeSpanClearIff(b, Step(b, e).1.row);
    }
  }

  /** A row seated anew sits on the least free place of its room. */
  lemma SeatedRow(b: Book, e: Event)
    requires UniqueIds(b) && b.multiPlace && Step(b, e).1.Done? && SeatsAnew(b, e)
    ensures var row := Step(b, e).1.row;
            row.room in b.rooms && Allocate(b.rooms[row.room].capacity, true, row.guests, Rivals(b, row)) == Some(row.place)
  {
    if e.Create? {
      SameOthers(b, e.id, Step(b, e).1.row);
    } else {
      FindMeaning(IdOf(), b.rows, e.id);
    }
  }

  // ── Swapping places ──────────────────────────────────────────────────────

  /** A third reservation holds `place` in the row's room on one of the row's nights. */
  ghost predicate HeldByThird(b: Book, row: Row, place: int, idA: Id, idB: Id) {
    && Live(row.status)
    && exists y :: y in b.rows && y.id != idA && y.id != idB && y.room == row.room && Live(y.status) && Meets(row, y) && y.place == place
  }

  lemma SingleClash(x: Row, y: Row)
    requires OnePerson(x) && OnePerson(y)
    ensures Clash(true, x, y) <==> x.id != y.id && x.room == y.room && Live(x.status) && Live(y.status) && Meets(x, y) && x.place == y.place
  {
  }

  /** A swap between single guests is safe exactly when no third guest holds either place on the nights of its new owner. */
  lemma SwapSafeIff(b: Book, idA: Id, idB: Id, versionA: int, versionB: int)
    requires UniqueIds(b) && NoClash(b) && b.multiPlace && AllSingle(b)
    requires SwapOn(b, idA, idB, versionA, versionB).1.Swapped?
    ensures RowAt(b, idA).Some? && RowAt(b, idB).Some?
    ensures var x, y := RowAt(b, idA).value, RowAt(b, idB).value;
            NoClash(SwapOn(b, idA, idB, versionA, versionB).0)
            <==> !HeldByThird(b, x, y.place, idA, idB) && !HeldByThird(b, y, x.place, idA, idB)
  {
    SwapRows(b, idA, idB, versionA, versionB);
    var x, y := RowAt(b, idA).value, RowAt(b, idB).value;
    var (after, out) := SwapOn(b, idA, idB, versionA, versionB);
    SwappedClearIff(b, x, y, out.a, idA, idB);
    SwappedClearIff(b, y, x, out.b, idA, idB);
    assert !Clash(true, x, y);
    assert !Clash(true, out.a, out.b);
    if !HeldByThird(b, x, y.place, idA, idB) && !HeldByThird(b, y, x.place, idA, idB) {
      forall p, q | p in after.rows && q in after.rows ensures !Clash(true, p, q) {
        ClashSymmetric(true, p, q);
      }
    }
    if NoClash(after) {
      forall z | z in b.rows && z.id != idA && z.id != idB ensures !Clash(true, out.a, z) && !Clash(true, out.b, z) {
        assert z in after.rows && out.a in after.rows && out.b in after.rows;
      }
    }
  }

  lemma SwappedClearIff(b: Book, x: Row, y: Row, moved: Row, idA: Id, idB: Id)
    requires AllSingle(b) && x in b.rows && moved == x.(place := y.place, version := x.version + 1) && x.id in {idA, idB}
    ensures (forall z :: z in b.rows && z.id != idA && z.id != idB ==> !Clash(true, moved, z)) <==> !HeldByThird(b, x, y.place, idA, idB)
  {
    forall z | z in b.rows && z.id != idA && z.id != idB
      ensures Clash(true, moved, z) <==> z.room == x.room && Live(x.status) && Live(z.status) && Meets(x, z) && z.place == y.place
    {
      SingleClash(moved, z);
    }
  }

  /** Two reservations for the same nights, both counting or neither, swap safely. */
  lemma SameNightsSwap(b: Book, idA: Id, idB: Id, versionA: int, versionB: int)
    requires UniqueIds(b) && NoClash(b) && b.multiPlace && AllSingle(b)
    requires SwapOn(b, idA, idB, versionA, versionB).1.Swapped? && SameNights(b, idA, idB)
    ensures NoClash(SwapOn(b, idA, idB, versionA, versionB).0)
  {
    SwapSafeIff(b, idA, idB, versionA, versionB);
    SwapRows(b, idA, idB, versionA, versionB);
    var x, y := RowAt(b, idA).value, RowAt(b, idB).value;
    forall z | z in b.rows && z.id != idA && z.id != idB
      ensures Live(x.status) && z.room == x.room && Live(z.status) && Meets(x, z) ==> z.place != x.place && z.place != y.place
    {
      SingleClash(x, z);
      SingleClash(y, z);
      assert !Clash(true, x, z) && !Clash(true, y, z);
    }
  }

  predicate SameNights(b: Book, idA: Id, idB: Id) {
    && RowAt(b, idA).Some? && RowAt(b, idB).Some?
    && var x, y := RowAt(b, idA).value, RowAt(b, idB).value;
    x.checkIn == y.checkIn && x.checkOut == y.checkOut && Live(x.status) == Live(y.status)
  }

  function Stay(id: Id, from: Day, to: Day, place: int, status: Status): Row {
    Row(id, 1, 1, from, to, Guests(1, 0), status, place, 1, false, None, None, None)
  }

  function TwoBeds(rows: seq<Row>): Book {
    Book(rows, map[1 := Room(1, 2, true, false)], map[], true)
  }

  lemma SwapMoves(x: Row, y: Row, z: Row)
    requires x.id != y.id && x.id != z.id && y.id != z.id && x.room == y.room
    ensures SwapOn(TwoBeds([x, y, z]), x.id, y.id, x.version, y.version)
            == (TwoBeds([x.(place := y.place, version := x.version + 1), y.(place := x.place, version := y.version + 1), z]),
                Swapped(x.(place := y.place, version := x.version + 1), y.(place := x.place, version := y.version + 1)))
  {
    var newA, newB := x.(place := y.place, version := x.version + 1), y.(place := x.place, version := y.version + 1);
    assert [x, y, z][1..] == [y, z] && [newA, y, z][1..] == [y, z] && [y, z][1..] == [z];
    assert Find(IdOf(), [x, y, z], y.id) == Find(IdOf(), [y, z], y.id) == Some(y);
    assert Put(IdOf(), [x, y, z], newA) == [newA, y, z];
    assert Put(IdOf(), [y, z], newB) == [newB, z];
    assert Put(IdOf(), [newA, y, z], newB) == [newA] + [newB, z] == [newA, newB, z];
    assert RowAt(TwoBeds([x, y, z]), x.id) == Some(x) && RowAt(TwoBeds([x, y, z]), y.id) == Some(y);
  }

  /** Different nights: the longer stay moves onto a bed somebody else has on its second night. */
  lemma DifferentNightsWitness()
    ensures var b := TwoBeds([Stay(1, 10, 12, 1, CONFIRMED), Stay(2, 10, 11, 2, CONFIRMED), Stay(3, 11, 12, 2, CONFIRMED)]);
            && NoClash(b) && Step(b, Swap(1, 2, 1, 1)).1.Swapped? && !NoClash(Step(b, Swap(1, 2, 1, 1)).0)
  {
    var x, y, z := Stay(1, 10, 12, 1, CONFIRMED), Stay(2, 10, 11, 2, CONFIRMED), Stay(3, 11, 12, 2, CONFIRMED);
    SwapMoves(x, y, z);
    var after := Step(TwoBeds([x, y, z]), Swap(1, 2, 1, 1)).0;
    assert after.rows[0] in after.rows && after.rows[2] in after.rows;
    assert Clash(true, after.rows[0], after.rows[2]);
  }

  /** Same nights but one of them cancelled: the live guest is sent to a bed that is taken. */
  lemma CancelledPartnerWitness()
    ensures var b := TwoBeds([Stay(1, 10, 11, 1, CONFIRMED), Stay(2, 10, 11, 2, CANCELLED), Stay(3, 10, 11, 2, CONFIRMED)]);
            && NoClash(b) && Step(b, Swap(1, 2, 1, 1)).1.Swapped? && !NoClash(Step(b, Swap(1, 2, 1, 1)).0)
  {
    var x, y, z := Stay(1, 10, 11, 1, CONFIRMED), Stay(2, 10, 11, 2, CANCELLED), Stay(3, 10, 11, 2, CONFIRMED);
    SwapMoves(x, y, z);
    var after := Step(TwoBeds([x, y, z]), Swap(1, 2, 1, 1)).0;
    assert after.rows[0] in after.rows && after.rows[2] in after.rows;
    assert Clash(true, after.rows[0], after.rows[2]);
  }

  /** Three beds, the middle one taken: the editor accepts a party of two and seats it over the guest. */
  lemma FragmentedCreateWitness()
    ensures var b := Book([Stay(1, 10, 11, 2, CONFIRMED)], map[1 := Room(1, 3, true, false)], map[], true);
            var e := Create(2, CreateDto(1, 10, 11, 2, None, None, None, false));
            && NoClash(b) && Step(b, e).1.Done? && !NoClash(Step(b, e).0)
  {
    var b := Book([Stay(1, 10, 11, 2, CONFIRMED)], map[1 := Room(1, 3, true, false)], map[], true);
    var dto := CreateDto(1, 10, 11, 2, None, None, None, false);
    var others := Others(b.rows, 1, 10, 11, None);
    assert b.rows[1..] == [];
    assert Filter(Overlapping(1, 10, 11, None), b.rows) == b.rows;
    assert others == [PlaceHolder(2, Guests(1, 0))];
    FragmentedRoom();
    var d := CreateDecision(b, 2, dto);
    assert d.Write? && d.row.place == 1;
    assert Clash(true, d.row, b.rows[0]);
    assert b.rows[0] in b.rows;
    WriteClearIff(b, d);
  }

  // ── Runs with single guests ──────────────────────────────────────────────

  /** Everyone travels alone, nobody is revived unchecked, and swaps are between equal stays. */
  ghost predicate CarefulRun(b: Book, events: seq<Event>)
    decreases |events|
  {
    && AllSingle(b)
    && (events != [] ==>
          && !RevivesUnchecked(b, events[0])
          && (events[0].Swap? ==> SameNights(b, events[0].idA, events[0].idB))
          && CarefulRun(Step(b, events[0]).0, events[1..]))
  }

  /** In every room, on every night, two guests never hold one place. */
  ghost predicate OneGuestAPlace(b: Book) {
    forall x, y, night: Day :: x in b.rows && y in b.rows && x.id != y.id && SleepsOn(x, night) && SleepsOn(y, night) ==>
                                 x.room != y.room || x.place != y.place
  }

  lemma SingleRoomsIff(b: Book)
    requires b.multiPlace && AllSingle(b) && RealStays(b)
    ensures NoClash(b) <==> OneGuestAPlace(b)
  {
    if OneGuestAPlace(b) {
      forall x, y | x in b.rows && y in b.rows ensures !Clash(b.multiPlace, x, y) {
        SingleClash(x, y);
        var night := if x.checkIn < y.checkIn then y.checkIn else x.checkIn;
        assert Clash(b.multiPlace, x, y) ==> SleepsOn(x, night) && SleepsOn(y, night);
      }
    }
  }

  lemma WrittenIsStored(b: Book, e: Event)
    requires UniqueIds(b) && Step(b, e).1.Done?
    ensures Step(b, e).1.row in Step(b, e).0.rows
  {
    PutMembers(IdOf(), b.rows, Step(b, e).1.row, Step(b, e).1.row);
  }

  lemma {:induction false} SingleGuestsRun(b: Book, events: seq<Event>)
    requires UniqueIds(b) && RealStays(b) && b.multiPlace && OneGuestAPlace(b) && CarefulRun(b, events)
    ensures OneGuestAPlace(Run(b, events))
    decreases |events|
  {
    if events != [] {
      var e, next := events[0], Step(b, events[0]).0;
      SingleRoomsIff(b);
      if e.Swap? {
        if Step(b, e).1.Swapped? {
          SameNightsSwap(b, e.idA, e.idB, e.versionA, e.versionB);
        }
      } else {
        if Step(b, e).1.Done? {
          WrittenIsStored(b, e);
        }
        SeatableIsSafe(b, e);
      }
      StepUnique(b, e);
      StepRealStays(b, e);
      SingleRoomsIff(next);
      SingleGuestsRun(next, events[1..]);
    }
  }
}
