/** When two reservations of one room can get in each other's way, and which steps allow it. */
module ReservationSafety {
  import opened Options
  import opened Sequences
  import opened KeyedRows
  import opened Tariffs
  import opened RoomPlaces
  import opened ReservationBook

  // ── Clashes ──────────────────────────────────────────────────────────────

  function Meets(x: Row, y: Row): bool {
    x.checkIn < y.checkOut && y.checkIn < x.checkOut
  }

  /** Two rows that both count, in one room, on a common night, and (sold by places) on a common place. */
  function Clash(multiPlace: bool, x: Row, y: Row): bool {
    && x.id != y.id && x.room == y.room && Live(x.status) && Live(y.status) && Meets(x, y)
    && (multiPlace ==> !Apart(x.place, PlacesOf(x.guests, 0, true), HolderOf()(y)))
  }

  ghost predicate NoClash(b: Book) {
    forall x, y :: x in b.rows && y in b.rows ==> !Clash(b.multiPlace, x, y)
  }

  /** The row clashes with no other row of the book. */
  ghost predicate Clear(b: Book, row: Row) {
    forall y :: y in b.rows ==> !Clash(b.multiPlace, row, y)
  }

  lemma ClashSymmetric(multiPlace: bool, x: Row, y: Row)
    ensures Clash(multiPlace, x, y) == Clash(multiPlace, y, x)
  {
  }

  /** Storing one row keeps the book free of clashes exactly when that row is clear. */
  lemma WriteClearIff(b: Book, d: Decision)
    requires UniqueIds(b) && NoClash(b) && d.Write?
    ensures NoClash(Apply(b, d).0) <==> Clear(b, d.row)
  {
    var after := Apply(b, d).0;
    forall y ensures y in after.rows <==> y == d.row || (y in b.rows && y.id != d.row.id) {
      PutMembers(IdOf(), b.rows, d.row, y);
    }
    if Clear(b, d.row) {
      forall x, y | x in after.rows && y in after.rows ensures !Clash(after.multiPlace, x, y) {
        ClashSymmetric(b.multiPlace, x, y);
      }
    }
    if NoClash(after) {
      forall y | y in b.rows ensures !Clash(b.multiPlace, d.row, y) {
        assert y.id != d.row.id ==> y in after.rows;
      }
    }
  }

  lemma OthersHold(rows: seq<Row>, room: Id, checkIn: Day, checkOut: Day, exclude: Option<Id>, y: Row)
    requires y in rows && Overlapping(room, checkIn, checkOut, exclude)(y)
    ensures HolderOf()(y) in Others(rows, room, checkIn, checkOut, exclude)
  {
    var kept := Filter(Overlapping(room, checkIn, checkOut, exclude), rows);
    assert y in kept;
    var i :| 0 <= i < |kept| && kept[i] == y;
    assert Others(rows, room, checkIn, checkOut, exclude)[i] == HolderOf()(y);
  }

  /** The other reservations of the row's room on its nights. */
  function Rivals(b: Book, row: Row): seq<PlaceHolder> {
    Others(b.rows, row.room, row.checkIn, row.checkOut, Some(row.id))
  }

  lemma RivalsHold(b: Book, row: Row, y: Row)
    requires y in b.rows && y.id != row.id && y.room == row.room && Live(y.status) && Meets(row, y)
    ensures HolderOf()(y) in Rivals(b, row)
  {
    OthersHold(b.rows, row.room, row.checkIn, row.checkOut, Some(row.id), y);
  }

  lemma SpanFreeClears(b: Book, row: Row, need: int, capacity: int)
    requires SpanFree(row.place, need, capacity, b.multiPlace, Rivals(b, row))
    requires b.multiPlace ==> need == PlacesOf(row.guests, 0, true)
    ensures Clear(b, row)
  {
    forall y | y in b.rows ensures !Clash(b.multiPlace, row, y) {
      if y.id != row.id && y.room == row.room && Live(y.status) && Meets(row, y) {
        RivalsHold(b, row, y);
      }
    }
  }

  lemma EmptyRoomClears(b: Book, row: Row)
    requires Rivals(b, row) == []
    ensures Clear(b, row)
  {
    forall y | y in b.rows ensures !Clash(b.multiPlace, row, y) {
      if y.id != row.id && y.room == row.room && Live(y.status) && Meets(row, y) {
        RivalsHold(b, row, y);
      }
    }
  }

  /** Free places keep the party apart from every holder. */
  lemma FreeSpanClears(b: Book, row: Row)
    requires b.multiPlace
    requires SpanIsFree(Taken(Rivals(b, row)), row.place, PlacesOf(row.guests, 0, true))
    ensures Clear(b, row)
  {
    var others := Rivals(b, row);
    forall y | y in b.rows ensures !Clash(b.multiPlace, row, y) {
      if y.id != row.id && y.room == row.room && Live(y.status) && Meets(row, y) {
        RivalsHold(b, row, y);
        var i :| 0 <= i < |others| && others[i] == HolderOf()(y);
        TakenMeaning(others, row.place);
        TakenMeaning(others, y.place);
        if row.place <= y.place {
          assert y.place in Taken(others);
        }
      }
    }
  }

  /** A row that only loses its right to the room, or changes nothing that matters, stays clear. */
  lemma SameStayClears(b: Book, cur: Row, row: Row)
    requires NoClash(b) && cur in b.rows && (Live(row.status) ==> Live(cur.status))
    requires row.id == cur.id && row.room == cur.room && row.checkIn == cur.checkIn && row.checkOut == cur.checkOut
    requires row.place == cur.place && row.guests == cur.guests
    ensures Clear(b, row)
  {
    forall y | y in b.rows ensures !Clash(b.multiPlace, row, y) {
      assert !Clash(b.multiPlace, cur, y);
    }
  }

  // ── Whole-room hotels ────────────────────────────────────────────────────

  /** An edit brings a cancelled or no-show row back without asking for its place. */
  function RevivesUnchecked(b: Book, e: Event): bool {
    && e.Update?
    && RowAt(b, e.id).Some?
    && !Live(RowAt(b, e.id).value.status)
    && Live(Or(e.edit.status, RowAt(b, e.id).value.status))
    && !AsksForPlace(e.edit)
  }

  /** A live reservation holds the row's room on one of its nights. */
  ghost predicate Occupied(b: Book, row: Row) {
    exists y :: y in b.rows && y.id != row.id && y.room == row.room && Live(y.status) && Meets(row, y)
  }

  lemma CreateClears(b: Book, id: Id, dto: CreateDto)
    requires UniqueIds(b) && !b.multiPlace && CreateDecision(b, id, dto).Write?
    ensures Clear(b, CreateDecision(b, id, dto).row)
  {
    var row := CreateDecision(b, id, dto).row;
    SameOthers(b, id, row);
    EmptyRoomClears(b, row);
  }

  /** A new reservation has no row of its own to leave out. */
  lemma SameOthers(b: Book, id: Id, row: Row)
    requires RowAt(b, id).None? && row.id == id
    ensures Rivals(b, row) == Others(b.rows, row.room, row.checkIn, row.checkOut, None)
  {
    FindMeaning(IdOf(), b.rows, id);
    FilterAgree(Overlapping(row.room, row.checkIn, row.checkOut, Some(id)), Overlapping(row.room, row.checkIn, row.checkOut, None), b.rows);
  }

  lemma PlacedClears(b: Book, cur: Row, dto: UpdateDto, at: Time)
    requires !b.multiPlace && AsksForPlace(dto) && PlaceFor(b, cur, dto).PlaceAt?
    ensures Clear(b, EditedRow(b, cur, dto, PlaceFor(b, cur, dto).place, at))
  {
    var row := EditedRow(b, cur, dto, PlaceFor(b, cur, dto).place, at);
    assert row.id == cur.id && row.room == Or(dto.room, cur.room);
    EmptyRoomClears(b, row);
  }

  lemma UpdateClearIff(b: Book, id: Id, dto: UpdateDto, fromChannel: bool, at: Time)
    requires UniqueIds(b) && NoClash(b) && !b.multiPlace
    requires UpdateDecision(b, id, dto, fromChannel, at).Write?
    ensures RowAt(b, id).Some?
    ensures Clear(b, UpdateDecision(b, id, dto, fromChannel, at).row)
            <==> !(RevivesUnchecked(b, Update(id, dto, fromChannel, at)) && Occupied(b, RowAt(b, id).value))
  {
    FindMeaning(IdOf(), b.rows, id);
    var cur, row := RowAt(b, id).value, UpdateDecision(b, id, dto, fromChannel, at).row;
    if AsksForPlace(dto) {
      PlacedClears(b, cur, dto, at);
    } else if Live(row.status) ==> Live(cur.status) {
      SameStayClears(b, cur, row);
    } else {
      forall y | y in b.rows && y.id != row.id && y.room == row.room && Live(y.status) && Meets(row, y)
        ensures Clash(b.multiPlace, row, y)
      {
      }
    }
  }

  /**
   * With places not sold separately, a step keeps every room to one reservation a night
   * except exactly an accepted edit that revives a dead row over an occupied room.
   */
  lemma WholeRoomStepIff(b: Book, e: Event)
    requires UniqueIds(b) && NoClash(b) && !b.multiPlace
    ensures NoClash(Step(b, e).0)
            <==> !(Step(b, e).1.Done? && RevivesUnchecked(b, e) && Occupied(b, RowAt(b, e.id).value))
  {
    match e
    case Create(id, dto) =>
      var d := CreateDecision(b, id, dto);
      if d.Write? {
        CreateClears(b, id, dto);
        WriteClearIff(b, d);
      }
    case Update(id, dto, fromChannel, at) =>
      var d := UpdateDecision(b, id, dto, fromChannel, at);
      if d.Write? {
        UpdateClearIff(b, id, dto, fromChannel, at);
        WriteClearIff(b, d);
      }
    case Swap(idA, idB, versionA, versionB) =>
      if Step(b, e).1.Swapped? {
        SwapRows(b, idA, idB, versionA, versionB);
        WholeRoomSwap(b, idA, idB, versionA, versionB);
      }
    case RecordFact(id, fact, at) =>
      var d := FactDecision(b, id, fact, at);
      if d.Write? && IsFact(fact) {
        FindMeaning(IdOf(), b.rows, id);
        SameStayClears(b, RowAt(b, id).value, d.row);
        WriteClearIff(b, d);
      }
    case Cancel(id, reason, fromChannel) =>
      var d := CancelDecision(b, id, reason, fromChannel);
      if d.Write? {
        FindMeaning(IdOf(), b.rows, id);
        SameStayClears(b, RowAt(b, id).value, d.row);
        WriteClearIff(b, d);
      }
  }

  lemma SwapRows(b: Book, idA: Id, idB: Id, versionA: int, versionB: int)
    requires UniqueIds(b) && SwapOn(b, idA, idB, versionA, versionB).1.Swapped?
    ensures var (after, out) := SwapOn(b, idA, idB, versionA, versionB);
            && RowAt(b, idA).Some? && RowAt(b, idB).Some?
            && RowAt(b, idA).value in b.rows && RowAt(b, idB).value in b.rows
            && RowAt(b, idA).value.id == idA == out.a.id && RowAt(b, idB).value.id == idB == out.b.id
            && (forall y :: y in after.rows <==> y == out.a || y == out.b || (y in b.rows && y.id != idA && y.id != idB))
  {
    FindMeaning(IdOf(), b.rows, idA);
    FindMeaning(IdOf(), b.rows, idB);
    var (after, out) := SwapOn(b, idA, idB, versionA, versionB);
    PutUnique(IdOf(), b.rows, out.a);
    forall y ensures y in after.rows <==> y == out.a || y == out.b || (y in b.rows && y.id != idA && y.id != idB) {
      PutMembers(IdOf(), b.rows, out.a, y);
      PutMembers(IdOf(), Put(IdOf(), b.rows, out.a), out.b, y);
    }
  }

  /** The row as it was before the swap. */
  function Unswapped(b: Book, y: Row): Row {
    if RowAt(b, y.id).Some? then RowAt(b, y.id).value else y
  }

  lemma WholeRoomSwap(b: Book, idA: Id, idB: Id, versionA: int, versionB: int)
    requires UniqueIds(b) && NoClash(b) && !b.multiPlace && SwapOn(b, idA, idB, versionA, versionB).1.Swapped?
    ensures NoClash(SwapOn(b, idA, idB, versionA, versionB).0)
  {
    var (after, out) := SwapOn(b, idA, idB, versionA, versionB);
    SwapRows(b, idA, idB, versionA, versionB);
    forall x, y | x in after.rows && y in after.rows ensures !Clash(after.multiPlace, x, y) {
      FindMeaning(IdOf(), b.rows, x.id);
      FindMeaning(IdOf(), b.rows, y.id);
      assert !Clash(b.multiPlace, Unswapped(b, x), Unswapped(b, y));
    }
  }

  // ── What is accepted ─────────────────────────────────────────────────────

  lemma RivalsEmptyIff(b: Book, row: Row)
    ensures Rivals(b, row) == [] <==> !Occupied(b, row)
  {
    var kept := Filter(Overlapping(row.room, row.checkIn, row.checkOut, Some(row.id)), b.rows);
    if Rivals(b, row) != [] {
      var y := kept[0];
      assert y in kept;
      assert y in b.rows && y.id != row.id && y.room == row.room && Live(y.status) && Meets(row, y);
    }
    if Occupied(b, row) {
      var y :| y in b.rows && y.id != row.id && y.room == row.room && Live(y.status) && Meets(row, y);
      RivalsHold(b, row, y);
    }
  }

  /** Where and when the edit puts the reservation. */
  function Moved(cur: Row, dto: UpdateDto): Row {
    cur.(room := Or(dto.room, cur.room), checkIn := Or(dto.checkIn, cur.checkIn), checkOut := Or(dto.checkOut, cur.checkOut))
  }

  predicate OnSale(b: Book, room: Id) {
    room in b.rooms && b.rooms[room].active
  }

  /** The row may take the status: facts from their own statuses, leaving with a settled bill, cancelling by the owner of the row. */
  predicate MayBecome(b: Book, cur: Row, status: Status, fromChannel: bool) {
    || status == cur.status
    || match status
       case CHECKED_IN => cur.status == NEW || cur.status == CONFIRMED
       case NO_SHOW => cur.status == NEW || cur.status == CONFIRMED
       case CHECKED_OUT => cur.status == CHECKED_IN && Settled(b, cur.id)
       case CANCELLED => cur.status != CHECKED_OUT && (cur.channelManaged ==> fromChannel)
       case _ => true
  }

  lemma EarlyPassesIff(b: Book, cur: Row, dto: UpdateDto, fromChannel: bool)
    ensures EarlyRefusal(b, cur, dto, fromChannel).None? <==>
              && cur.version == dto.version
              && (cur.channelManaged && !fromChannel ==> NewGuests(cur, dto) == cur.guests)
              && Moved(cur, dto).checkIn < Moved(cur, dto).checkOut
              && MayBecome(b, cur, Or(dto.status, cur.status), fromChannel)
  {
  }

  lemma WholeRoomPlaceIff(b: Book, cur: Row, dto: UpdateDto)
    requires !b.multiPlace
    ensures PlaceFor(b, cur, dto).PlaceAt? <==>
              (AsksForPlace(dto) ==>
                 && OnSale(b, Moved(cur, dto).room) && !Occupied(b, Moved(cur, dto))
                 && (dto.place.Some? ==> 1 <= dto.place.value <= b.rooms[Moved(cur, dto).room].capacity))
  {
    RivalsEmptyIff(b, Moved(cur, dto));
  }

  /**
   * A whole-room hotel accepts an edit if and only if it knows the row at its present version, keeps a
   * partner's guest count, leaves at least one night, moves the status as it may, and, when it asks for a
   * place, the room is on sale, free of other reservations on every night, and has the place named.
   */
  lemma WholeRoomEditIff(b: Book, id: Id, dto: UpdateDto, fromChannel: bool, at: Time)
    requires !b.multiPlace
    ensures UpdateDecision(b, id, dto, fromChannel, at).Write? <==>
              && RowAt(b, id).Some?
              && var cur := RowAt(b, id).value;
              && cur.version == dto.version
              && (cur.channelManaged && !fromChannel ==> NewGuests(cur, dto) == cur.guests)
              && Moved(cur, dto).checkIn < Moved(cur, dto).checkOut
              && MayBecome(b, cur, Or(dto.status, cur.status), fromChannel)
              && (AsksForPlace(dto) ==>
                    && OnSale(b, Moved(cur, dto).room) && !Occupied(b, Moved(cur, dto))
                    && (dto.place.Some? ==> 1 <= dto.place.value <= b.rooms[Moved(cur, dto).room].capacity))
  {
    if RowAt(b, id).Some? {
      EarlyPassesIff(b, RowAt(b, id).value, dto, fromChannel);
      WholeRoomPlaceIff(b, RowAt(b, id).value, dto);
    }
  }

  /** No event of the run is an unchecked revival. */
  ghost predicate NeverRevives(b: Book, events: seq<Event>)
    decreases |events|
  {
    events != [] ==> !RevivesUnchecked(b, events[0]) && NeverRevives(Step(b, events[0]).0, events[1..])
  }

  /** Every row's stay has at least one night. */
  ghost predicate RealStays(b: Book) {
    forall r :: r in b.rows ==> r.checkIn < r.checkOut
  }

  /** In every room, on every night, at most one reservation counts. */
  ghost predicate OneGuestPartyANight(b: Book) {
    forall x, y, night: Day :: x in b.rows && y in b.rows && SleepsOn(x, night) && SleepsOn(y, night) && x.room == y.room ==> x.id == y.id
  }

  ghost predicate SleepsOn(r: Row, night: Day) {
    r.status in {NEW, CONFIRMED, CHECKED_IN, CHECKED_OUT} && r.checkIn <= night < r.checkOut
  }

  lemma ClashIsSharedNight(b: Book)
    requires !b.multiPlace && RealStays(b)
    ensures NoClash(b) <==> OneGuestPartyANight(b)
  {
    if OneGuestPartyANight(b) {
      forall x, y | x in b.rows && y in b.rows ensures !Clash(b.multiPlace, x, y) {
        var night := if x.checkIn < y.checkIn then y.checkIn else x.checkIn;
        assert Clash(b.multiPlace, x, y) ==> SleepsOn(x, night) && SleepsOn(y, night);
      }
    }
  }

  lemma StepRealStays(b: Book, e: Event)
    requires UniqueIds(b) && RealStays(b)
    ensures RealStays(Step(b, e).0)
  {
    match e
    case Create(id, dto) => WriteRealStays(b, CreateDecision(b, id, dto));
    case Update(id, dto, fromChannel, at) =>
      var d := UpdateDecision(b, id, dto, fromChannel, at);
      if d.Write? {
        assert EarlyRefusal(b, RowAt(b, id).value, dto, fromChannel).None?;
        WriteRealStays(b, d);
      }
    case Swap(idA, idB, versionA, versionB) =>
      if Step(b, e).1.Swapped? {
        SwapRows(b, idA, idB, versionA, versionB);
      }
    case RecordFact(id, fact, at) =>
      FindMeaning(IdOf(), b.rows, id);
      WriteRealStays(b, FactDecision(b, id, fact, at));
    case Cancel(id, reason, fromChannel) =>
      FindMeaning(IdOf(), b.rows, id);
      WriteRealStays(b, CancelDecision(b, id, reason, fromChannel));
  }

  lemma WriteRealStays(b: Book, d: Decision)
    requires UniqueIds(b) && RealStays(b) && (d.Write? ==> d.row.checkIn < d.row.checkOut)
    ensures RealStays(Apply(b, d).0)
  {
    if d.Write? {
      forall r | r in Apply(b, d).0.rows ensures r.checkIn < r.checkOut {
        PutMembers(IdOf(), b.rows, d.row, r);
      }
    }
  }

  /** Over every run without an unchecked revival a whole-room hotel never books a room twice for a night. */
  lemma {:induction false} WholeRoomRun(b: Book, events: seq<Event>)
    requires UniqueIds(b) && RealStays(b) && !b.multiPlace && OneGuestPartyANight(b) && NeverRevives(b, events)
    ensures OneGuestPartyANight(Run(b, events))
    decreases |events|
  {
    if events != [] {
      var next := Step(b, events[0]).0;
      ClashIsSharedNight(b);
      WholeRoomStepIff(b, events[0]);
      StepUnique(b, events[0]);
      StepRealStays(b, events[0]);
      ClashIsSharedNight(next);
      WholeRoomRun(next, events[1..]);
    }
  }

  /** A cancelled reservation brought back by its status alone, over the one made since. */
  lemma RevivalWitness(dead: Row, guest: Row, rooms: map<Id, Room>)
    requires dead.id != guest.id && dead.room == guest.room && Meets(dead, guest) && dead.checkIn < dead.checkOut
    requires dead.status == CANCELLED && guest.status == CONFIRMED
    ensures var b := Book([dead, guest], rooms, map[], false);
            var e := Update(dead.id, StatusOnly(dead.version, CONFIRMED), false, 0);
            && NoClash(b) && Step(b, e).1.Done? && !NoClash(Step(b, e).0)
  {
    var b := Book([dead, guest], rooms, map[], false);
    var e := Update(dead.id, StatusOnly(dead.version, CONFIRMED), false, 0);
    assert RowAt(b, dead.id) == Some(dead);
    assert guest in b.rows;
    assert Occupied(b, dead);
    WholeRoomStepIff(b, e);
  }
}
