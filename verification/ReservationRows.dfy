/** What each operation on the book writes, field by field, and what it leaves alone. */
module ReservationRows {
  import opened Options
  import opened Sequences
  import opened KeyedRows
  import opened Tariffs
  import opened RoomPlaces
  import opened ReservationBook
  import opened ReservationSafety
  import opened ReservationPlaces

  // ── Places held ──────────────────────────────────────────────────────────

  function PartySize(g: Guests): int {
    if g.adults + g.children > 1 then g.adults + g.children else 1
  }

  /** Another reservation that counts holds the place in the row's room on one of the row's nights. */
  ghost predicate Held(b: Book, row: Row, place: int) {
    exists y :: y in b.rows && y.id != row.id && y.room == row.room && y.status != CANCELLED && y.status != NO_SHOW
                && y.checkIn < row.checkOut && row.checkIn < y.checkOut
                && y.place <= place < y.place + PartySize(y.guests)
  }

  lemma TakenIsHeld(b: Book, row: Row, place: int)
    ensures place in Taken(Rivals(b, row)) <==> Held(b, row, place)
  {
    var keep := Overlapping(row.room, row.checkIn, row.checkOut, Some(row.id));
    var kept, others := Filter(keep, b.rows), Rivals(b, row);
    TakenMeaning(others, place);
    if place in Taken(others) {
      var i :| 0 <= i < |others| && others[i].place <= place < others[i].place + PlacesOf(others[i].guests, 0, true);
      assert kept[i] in kept && others[i] == HolderOf()(kept[i]);
    }
    if Held(b, row, place) {
      var y :| y in b.rows && y.id != row.id && y.room == row.room && y.status != CANCELLED && y.status != NO_SHOW
               && y.checkIn < row.checkOut && row.checkIn < y.checkOut && y.place <= place < y.place + PartySize(y.guests);
      assert y in kept;
      var i :| 0 <= i < |kept| && kept[i] == y;
      assert others[i] == HolderOf()(y);
    }
  }

  /** The least place nobody else holds, with room for the whole party behind it. */
  ghost predicate LeastFreePlace(b: Book, row: Row) {
    && row.room in b.rooms
    && 1 <= row.place && row.place + PartySize(row.guests) - 1 <= b.rooms[row.room].capacity
    && !Held(b, row, row.place)
    && forall q :: 1 <= q < row.place ==> Held(b, row, q)
  }

  lemma AllocatedIsLeast(b: Book, row: Row)
    requires b.multiPlace && row.room in b.rooms
    requires Allocate(b.rooms[row.room].capacity, true, row.guests, Rivals(b, row)) == Some(row.place)
    ensures LeastFreePlace(b, row)
  {
    AllocateMeaning(b.rooms[row.room].capacity, row.guests, Rivals(b, row));
    TakenIsHeld(b, row, row.place);
    forall q | 1 <= q < row.place ensures Held(b, row, q) {
      TakenIsHeld(b, row, q);
    }
  }

  // ── Creating ─────────────────────────────────────────────────────────────

  /** The row a creation asks for, before its place is known. */
  function Asked(b: Book, id: Id, dto: CreateDto): Row
    requires dto.room in b.rooms
  {
    Row(id, dto.room, b.rooms[dto.room].roomType, dto.checkIn, dto.checkOut,
        Guests(dto.adults, if dto.children.Some? then dto.children.value else 0),
        if dto.status.Some? then dto.status.value else CONFIRMED, 0, 1, dto.channelManaged, dto.notes, None, None)
  }

  /** A creation stores exactly what was asked at version 1, on place 1 of a whole room or on the least free place. */
  lemma CreatedRow(b: Book, id: Id, dto: CreateDto)
    requires Step(b, Create(id, dto)).1.Done?
    ensures var (after, out) := Step(b, Create(id, dto));
            && dto.room in b.rooms && RowAt(after, id) == Some(out.row)
            && out.row == Asked(b, id, dto).(place := out.row.place)
            && (if b.multiPlace then LeastFreePlace(b, out.row) else out.row.place == 1)
            && after.rooms == b.rooms
            && forall other :: other != id ==> RowAt(after, other) == RowAt(b, other)
  {
    var (after, out) := Step(b, Create(id, dto));
    forall other ensures RowAt(after, other) == if other == id then Some(out.row) else RowAt(b, other) {
      PutMeaning(IdOf(), b.rows, out.row, other);
    }
    SameOthers(b, id, out.row);
    if b.multiPlace {
      AllocatedIsLeast(b, out.row);
    }
  }

  /** It is accepted exactly when it has a night, a room on sale, and the party fits: alone in a whole room, or by the count of free places. */
  lemma CreateIff(b: Book, id: Id, dto: CreateDto)
    ensures Step(b, Create(id, dto)).1.Done? <==>
              && dto.checkIn < dto.checkOut && RowAt(b, id).None? && OnSale(b, dto.room)
              && (!b.multiPlace ==> !Occupied(b, Asked(b, id, dto)))
              && (b.multiPlace ==>
                    |Taken(Rivals(b, Asked(b, id, dto)))| + PartySize(Asked(b, id, dto).guests) <= b.rooms[dto.room].capacity)
  {
    if dto.checkIn < dto.checkOut && RowAt(b, id).None? && OnSale(b, dto.room) {
      var row := Asked(b, id, dto);
      SameOthers(b, id, row);
      RoomFitsIff(b.rooms[dto.room].capacity, b.multiPlace, row.guests, Rivals(b, row));
      RivalsEmptyIff(b, row);
    }
  }

  /**
   * A reservation created for the partner stays the partner's: over every run in which the partner does not act
   * on it, it keeps exactly the party sent and is not cancelled, and the staff cannot cancel it.
   */
  lemma PartnerKeepsIts(b: Book, id: Id, dto: CreateDto, events: seq<Event>, reason: Option<string>)
    requires Step(b, Create(id, dto)).1.Done? && dto.channelManaged && !AnyFromChannel(events, id)
    ensures var later := Run(Step(b, Create(id, dto)).0, events);
            && RowAt(later, id).Some?
            && var row := RowAt(later, id).value;
               && row.channelManaged
               && row.guests == Guests(dto.adults, if dto.children.Some? then dto.children.value else 0)
               && (row.status == CANCELLED ==> dto.status == Some(CANCELLED))
               && Step(later, Cancel(id, reason, false)) == (later, Refused(CHANNEL_MANAGED))
  {
    CreatedRow(b, id, dto);
    RunCarries(Step(b, Create(id, dto)).0, events, id);
  }

  // ── Cancelling ───────────────────────────────────────────────────────────

  /** Whoever owns a row that is still open may cancel it, and only they; the reason is added to the notes. */
  lemma CancelIff(b: Book, id: Id, reason: Option<string>, fromChannel: bool)
    ensures var (after, out) := Step(b, Cancel(id, reason, fromChannel));
            && (out.Done? <==> && RowAt(b, id).Some?
                               && RowAt(b, id).value.status != CANCELLED && RowAt(b, id).value.status != CHECKED_OUT
                               && (RowAt(b, id).value.channelManaged ==> fromChannel))
            && (out.Done? ==>
                  var cur := RowAt(b, id).value;
                  && RowAt(after, id) == Some(out.row)
                  && out.row == cur.(status := CANCELLED, version := cur.version + 1, notes := out.row.notes)
                  && out.row.notes.Some?
                  && var told := if cur.notes.Some? then cur.notes.value else "";
                     out.row.notes.value
                     == if reason.Some? && reason.value != "" then told + "\n[Cancelled: " + reason.value + "]" else told)
  {
    FindMeaning(IdOf(), b.rows, id);
    var (after, out) := Step(b, Cancel(id, reason, fromChannel));
    if out.Done? {
      PutMeaning(IdOf(), b.rows, out.row, id);
    }
  }

  // ── Facts ────────────────────────────────────────────────────────────────

  /** When the row newly takes the status, the moment is noted; otherwise what was noted stays. */
  function Noted(before: Option<Time>, newly: bool, at: Time): Option<Time> {
    if newly then Some(at) else before
  }

  /** A button records its fact from the statuses that allow it, leaving only with a settled bill, and notes the time of it. */
  lemma FactIff(b: Book, id: Id, fact: Status, at: Time)
    requires IsFact(fact)
    ensures var (after, out) := Step(b, RecordFact(id, fact, at));
            && (out.Done? <==> && RowAt(b, id).Some? && RowAt(b, id).value.status != fact
                               && MayBecome(b, RowAt(b, id).value, fact, false))
            && (out.Done? ==>
                  var cur := RowAt(b, id).value;
                  && RowAt(after, id) == Some(out.row)
                  && out.row == cur.(status := fact, version := cur.version + 1,
                                     checkedInAt := Noted(cur.checkedInAt, fact == CHECKED_IN, at),
                                     checkedOutAt := Noted(cur.checkedOutAt, fact == CHECKED_OUT, at)))
  {
    FindMeaning(IdOf(), b.rows, id);
    var (after, out) := Step(b, RecordFact(id, fact, at));
    if out.Done? {
      PutMeaning(IdOf(), b.rows, out.row, id);
    }
  }

  /** The room a guest leaves by this step: a row of it becomes checked out. */
  ghost function LeftRoom(b: Book, e: Event): Option<Id> {
    match Step(b, e).1
    case Done(row) =>
      if RowAt(b, row.id).Some? && RowAt(b, row.id).value.status != CHECKED_OUT && row.status == CHECKED_OUT then Some(row.room) else None
    case _ => None
  }

  /** Only the room a guest leaves is to be cleaned; no other room, no bill and no rule of the hotel changes. */
  ghost predicate OnlyDirty(b: Book, after: Book, left: Option<Id>) {
    && after.folios == b.folios && after.multiPlace == b.multiPlace
    && after.rooms.Keys == b.rooms.Keys
    && forall room :: room in b.rooms ==>
         after.rooms[room] == if left == Some(room) then b.rooms[room].(dirty := true) else b.rooms[room]
  }

  lemma WriteDirties(b: Book, d: Decision)
    ensures OnlyDirty(b, Apply(b, d).0, if d.Write? then d.vacated else None)
  {
  }

  lemma EditLeaves(b: Book, id: Id, dto: UpdateDto, fromChannel: bool, at: Time)
    ensures var d := UpdateDecision(b, id, dto, fromChannel, at);
            LeftRoom(b, Update(id, dto, fromChannel, at)) == if d.Write? then d.vacated else None
  {
    FindMeaning(IdOf(), b.rows, id);
    if UpdateDecision(b, id, dto, fromChannel, at).Write? {
      var cur := RowAt(b, id).value;
      EditedFields(b, cur, dto, PlaceFor(b, cur, dto).place, at);
    }
  }

  /** Whatever the step. */
  lemma OnlyLeavingDirties(b: Book, e: Event)
    ensures OnlyDirty(b, Step(b, e).0, LeftRoom(b, e))
  {
    match e
    case Create(id, dto) => WriteDirties(b, CreateDecision(b, id, dto));
    case Update(id, dto, fromChannel, at) =>
      WriteDirties(b, UpdateDecision(b, id, dto, fromChannel, at));
      EditLeaves(b, id, dto, fromChannel, at);
    case Swap(idA, idB, versionA, versionB) =>
    case RecordFact(id, fact, at) =>
      FindMeaning(IdOf(), b.rows, id);
      WriteDirties(b, FactDecision(b, id, fact, at));
    case Cancel(id, reason, fromChannel) =>
      FindMeaning(IdOf(), b.rows, id);
      WriteDirties(b, CancelDecision(b, id, reason, fromChannel));
  }

  // ── Refusals ─────────────────────────────────────────────────────────────

  /** The row a step is about, as it is before the step. */
  function About(b: Book, e: Event): Option<Row> {
    match e
    case Update(id, _, _, _) => RowAt(b, id)
    case RecordFact(id, _, _) => RowAt(b, id)
    case Cancel(id, _, _) => RowAt(b, id)
    case _ => None
  }

  /** The status a step wants for the row. */
  function Wanted(b: Book, e: Event): Option<Status> {
    match e
    case Update(_, dto, _, _) => dto.status
    case RecordFact(_, fact, _) => Some(fact)
    case Cancel(_, _, _) => Some(CANCELLED)
    case _ => None
  }

  predicate ByStaff(e: Event) {
    (e.Update? && !e.fromChannel) || (e.Cancel? && !e.fromChannel)
  }

  /** What each refusal says about the book. */
  ghost predicate IsTrue(b: Book, e: Event, why: Refusal) {
    match why
    case NOT_FOUND =>
      if e.Swap? then e.idA == e.idB || RowAt(b, e.idA).None? || RowAt(b, e.idB).None? else !e.Create? && About(b, e).None?
    case VERSION_MISMATCH =>
      if e.Swap? then
        RowAt(b, e.idA).Some? && RowAt(b, e.idB).Some?
        && (RowAt(b, e.idA).value.version != e.versionA || RowAt(b, e.idB).value.version != e.versionB)
      else e.Update? && About(b, e).Some? && About(b, e).value.version != e.edit.version
    case DIFFERENT_ROOMS =>
      e.Swap? && RowAt(b, e.idA).Some? && RowAt(b, e.idB).Some? && RowAt(b, e.idA).value.room != RowAt(b, e.idB).value.room
    case ID_TAKEN => e.Create? && RowAt(b, e.id).Some?
    case CHANNEL_GUESTS =>
      e.Update? && ByStaff(e) && About(b, e).Some? && About(b, e).value.channelManaged && NewGuests(About(b, e).value, e.edit) != About(b, e).value.guests
    case DATE_CONFLICT =>
      if e.Create? then e.order.checkOut <= e.order.checkIn
      else e.Update? && About(b, e).Some? && Moved(About(b, e).value, e.edit).checkOut <= Moved(About(b, e).value, e.edit).checkIn
    case WRONG_STATUS =>
      || (e.RecordFact? && !IsFact(e.fact))
      || (&& About(b, e).Some? && Wanted(b, e).Some?
          && match Wanted(b, e).value
             case CHECKED_OUT => About(b, e).value.status != CHECKED_IN
             case _ => About(b, e).value.status != NEW && About(b, e).value.status != CONFIRMED)
    case UNSETTLED_BALANCE => About(b, e).Some? && Wanted(b, e) == Some(CHECKED_OUT) && About(b, e).value.status == CHECKED_IN && !Settled(b, e.id)
    case CHANNEL_MANAGED => About(b, e).Some? && Wanted(b, e) == Some(CANCELLED) && About(b, e).value.channelManaged && ByStaff(e)
    case ALREADY_CLOSED =>
      About(b, e).Some? && Wanted(b, e) == Some(CANCELLED) && (About(b, e).value.status == CANCELLED || About(b, e).value.status == CHECKED_OUT)
    case ROOM_NOT_FOUND =>
      if e.Create? then !OnSale(b, e.order.room)
      else e.Update? && About(b, e).Some? && AsksForPlace(e.edit) && !OnSale(b, Moved(About(b, e).value, e.edit).room)
    case BOOKING_CONFLICT => e.Update? && About(b, e).Some? && e.edit.place.Some?
    case NO_PLACE_AVAILABLE => e.Create? || (e.Update? && e.edit.place.None? && AsksForPlace(e.edit))
  }

  lemma EarlyRefusalIsTrue(b: Book, e: Event)
    requires e.Update? && RowAt(b, e.id).Some? && EarlyRefusal(b, RowAt(b, e.id).value, e.edit, e.fromChannel).Some?
    ensures IsTrue(b, e, EarlyRefusal(b, RowAt(b, e.id).value, e.edit, e.fromChannel).value)
  {
    FindMeaning(IdOf(), b.rows, e.id);
  }

  lemma EditRefusalIsTrue(b: Book, e: Event)
    requires e.Update? && Step(b, e).1.Refused?
    ensures IsTrue(b, e, Step(b, e).1.reason)
  {
    if RowAt(b, e.id).Some? {
      var cur := RowAt(b, e.id).value;
      if EarlyRefusal(b, cur, e.edit, e.fromChannel).Some? {
        EarlyRefusalIsTrue(b, e);
      } else {
        assert PlaceFor(b, cur, e.edit).Unplaced?;
      }
    }
  }

  /** No step is refused for a reason that does not hold. */
  lemma RefusalsAreTrue(b: Book, e: Event)
    requires Step(b, e).1.Refused?
    ensures IsTrue(b, e, Step(b, e).1.reason)
  {
    if e.Update? {
      EditRefusalIsTrue(b, e);
    } else if e.RecordFact? {
      FindMeaning(IdOf(), b.rows, e.id);
    }
  }

  /** Places are refused only when they are held, do not exist, or are too few. */
  lemma PlaceRefusals(b: Book, e: Event)
    requires Step(b, e).1 == Refused(BOOKING_CONFLICT) || Step(b, e).1 == Refused(NO_PLACE_AVAILABLE)
    ensures e.Create? ==>
              var row := Asked(b, e.id, e.order);
              if b.multiPlace then |Taken(Rivals(b, row))| + PartySize(row.guests) > b.rooms[row.room].capacity else Occupied(b, row)
    ensures e.Update? && e.edit.place.Some? && About(b, e).Some? ==>
              var cur := About(b, e).value;
              var row := Moved(cur, e.edit).(guests := NewGuests(cur, e.edit), place := e.edit.place.value);
              || row.place < 1
              || row.room !in b.rooms || row.place + (if b.multiPlace then PartySize(row.guests) else 1) - 1 > b.rooms[row.room].capacity
              || (if b.multiPlace then exists q :: row.place <= q < row.place + PartySize(row.guests) && Held(b, row, q) else Occupied(b, row))
  {
    if e.Create? {
      CreateIff(b, e.id, e.order);
    } else if e.Update? && e.edit.place.Some? && About(b, e).Some? {
      FindMeaning(IdOf(), b.rows, e.id);
      var cur := About(b, e).value;
      var row := Moved(cur, e.edit).(guests := NewGuests(cur, e.edit), place := e.edit.place.value);
      RivalsEmptyIff(b, row);
      if b.multiPlace && row.room in b.rooms && row.place >= 1 && row.place + PartySize(row.guests) - 1 <= b.rooms[row.room].capacity {
        TakenInside(b, row);
      }
    }
  }

  /** A span that is not apart from some holder has a place that is held. */
  lemma TakenInside(b: Book, row: Row)
    requires !(forall o :: o in Rivals(b, row) ==> Apart(row.place, PartySize(row.guests), o))
    ensures exists q :: row.place <= q < row.place + PartySize(row.guests) && Held(b, row, q)
  {
    var others := Rivals(b, row);
    var o :| o in others && !Apart(row.place, PartySize(row.guests), o);
    var i :| 0 <= i < |others| && others[i] == o;
    var q := if row.place < o.place then o.place else row.place;
    TakenMeaning(others, q);
    TakenIsHeld(b, row, q);
  }

  // ── Editing ──────────────────────────────────────────────────────────────

  /** What was sent is written, what was not sent stays; empty notes are no notes. */
  predicate WrittenAs(cur: Row, dto: UpdateDto, row: Row) {
    && row.id == cur.id && row.version == cur.version + 1 && row.channelManaged == cur.channelManaged
    && row.room == (if dto.room.Some? then dto.room.value else cur.room)
    && row.checkIn == (if dto.checkIn.Some? then dto.checkIn.value else cur.checkIn)
    && row.checkOut == (if dto.checkOut.Some? then dto.checkOut.value else cur.checkOut)
    && row.guests.adults == (if dto.adults.Some? then dto.adults.value else cur.guests.adults)
    && row.guests.children == (if dto.children.Some? then dto.children.value else cur.guests.children)
    && row.status == (if dto.status.Some? then dto.status.value else cur.status)
    && row.notes == (if dto.notes.None? then cur.notes else if dto.notes == Some("") then None else dto.notes)
  }

  /** A row that changes its room takes the room's category; a new fact notes its time. */
  predicate FollowsFrom(b: Book, cur: Row, row: Row, at: Time) {
    && (row.room == cur.room ==> row.roomType == cur.roomType)
    && (row.room != cur.room ==> row.room in b.rooms && row.roomType == b.rooms[row.room].roomType)
    && row.checkedInAt == Noted(cur.checkedInAt, row.status == CHECKED_IN != cur.status, at)
    && row.checkedOutAt == Noted(cur.checkedOutAt, row.status == CHECKED_OUT != cur.status, at)
  }

  lemma EditedFields(b: Book, cur: Row, dto: UpdateDto, place: int, at: Time)
    ensures WrittenAs(cur, dto, EditedRow(b, cur, dto, place, at))
    ensures EditedRow(b, cur, dto, place, at).place == place
  {
  }

  lemma EditedTraces(b: Book, cur: Row, dto: UpdateDto, at: Time)
    requires PlaceFor(b, cur, dto).PlaceAt?
    ensures FollowsFrom(b, cur, EditedRow(b, cur, dto, PlaceFor(b, cur, dto).place, at), at)
  {
  }

  /** An accepted edit writes exactly that, and the row is in the book. */
  lemma EditedRowMeaning(b: Book, id: Id, dto: UpdateDto, fromChannel: bool, at: Time)
    requires Step(b, Update(id, dto, fromChannel, at)).1.Done?
    ensures var (after, out) := Step(b, Update(id, dto, fromChannel, at));
            && RowAt(b, id).Some? && RowAt(after, id) == Some(out.row)
            && WrittenAs(RowAt(b, id).value, dto, out.row) && FollowsFrom(b, RowAt(b, id).value, out.row, at)
  {
    FindMeaning(IdOf(), b.rows, id);
    var cur := RowAt(b, id).value;
    EditedFields(b, cur, dto, PlaceFor(b, cur, dto).place, at);
    EditedTraces(b, cur, dto, at);
    PutMeaning(IdOf(), b.rows, Step(b, Update(id, dto, fromChannel, at)).1.row, id);
  }

  /** The place asked for is the place given; without one the row stays where it is, unless it has to be seated anew. */
  lemma EditedPlace(b: Book, id: Id, dto: UpdateDto, fromChannel: bool, at: Time)
    requires Step(b, Update(id, dto, fromChannel, at)).1.Done?
    ensures var e := Update(id, dto, fromChannel, at);
            var row := Step(b, e).1.row;
            && RowAt(b, id).Some?
            && (dto.place.Some? ==>
                  row.place == dto.place.value && (b.multiPlace ==> forall q :: row.place <= q < row.place + PartySize(row.guests) ==> !Held(b, row, q)))
            && (b.multiPlace && SeatsAnew(b, e) && UniqueIds(b) ==> LeastFreePlace(b, row))
            && (b.multiPlace && dto.place.None? && !SeatsAnew(b, e) ==> row.place == RowAt(b, id).value.place)
            && (!AsksForPlace(dto) ==> row.place == RowAt(b, id).value.place)
  {
    var e := Update(id, dto, fromChannel, at);
    var row := Step(b, e).1.row;
    FindMeaning(IdOf(), b.rows, id);
    if b.multiPlace && SeatsAnew(b, e) && UniqueIds(b) {
      SeatedRow(b, e);
      AllocatedIsLeast(b, row);
    }
    if b.multiPlace && dto.place.Some? {
      GivenPlaceIsFree(b, row, RowAt(b, id).value, dto);
    }
  }

  lemma GivenPlaceIsFree(b: Book, row: Row, cur: Row, dto: UpdateDto)
    requires b.multiPlace && dto.place.Some? && PlaceFor(b, cur, dto) == PlaceAt(row.place)
    requires row.id == cur.id && row.room == Or(dto.room, cur.room) && row.guests == NewGuests(cur, dto)
    requires row.checkIn == Or(dto.checkIn, cur.checkIn) && row.checkOut == Or(dto.checkOut, cur.checkOut)
    ensures forall q :: row.place <= q < row.place + PartySize(row.guests) ==> !Held(b, row, q)
  {
    var others := Rivals(b, row);
    forall i | 0 <= i < |others| ensures Apart(row.place, PlacesOf(row.guests, 0, true), others[i]) {
      assert others[i] in others;
    }
    forall q | row.place <= q < row.place + PartySize(row.guests) ensures !Held(b, row, q) {
      TakenIsHeld(b, row, q);
      TakenMeaning(others, q);
    }
  }

  // ── Swapping ─────────────────────────────────────────────────────────────

  /** Two rows of one room at the versions named exchange their places and nothing else; any other swap is refused. */
  lemma SwapIff(b: Book, idA: Id, idB: Id, versionA: int, versionB: int)
    ensures var (after, out) := Step(b, Swap(idA, idB, versionA, versionB));
            && (out.Swapped? <==> && idA != idB && RowAt(b, idA).Some? && RowAt(b, idB).Some?
                                  && RowAt(b, idA).value.version == versionA && RowAt(b, idB).value.version == versionB
                                  && RowAt(b, idA).value.room == RowAt(b, idB).value.room)
            && (out.Swapped? ==>
                  var x, y := RowAt(b, idA).value, RowAt(b, idB).value;
                  && RowAt(after, idA) == Some(x.(place := y.place, version := x.version + 1))
                  && RowAt(after, idB) == Some(y.(place := x.place, version := y.version + 1)))
            && (forall other :: other != idA && other != idB ==> RowAt(after, other) == RowAt(b, other))
            && after.rooms == b.rooms
  {
    FindMeaning(IdOf(), b.rows, idA);
    FindMeaning(IdOf(), b.rows, idB);
    var (after, out) := Step(b, Swap(idA, idB, versionA, versionB));
    if out.Swapped? {
      var once := Put(IdOf(), b.rows, out.a);
      forall id ensures RowAt(after, id) == if id == idB then Some(out.b) else if id == idA then Some(out.a) else RowAt(b, id) {
        PutMeaning(IdOf(), once, out.b, id);
        PutMeaning(IdOf(), b.rows, out.a, id);
      }
    }
  }
}
