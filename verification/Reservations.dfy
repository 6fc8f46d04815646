/** The reservation service: each operation runs in one transaction and leaves the book its specification gives. */
module Reservations {
  import opened Options
  import opened KeyedRows
  import opened Tariffs
  import opened RoomPlaces
  import opened ReservationBook

  class ReservationsService {
    var rows: seq<Row>
    var rooms: map<Id, Room>
    var folios: map<Id, Folio>
    const multiPlace: bool

    constructor (rooms: map<Id, Room>, multiPlace: bool)
      ensures View() == Book([], rooms, map[], multiPlace)
    {
      rows, this.rooms, folios, this.multiPlace := [], rooms, map[], multiPlace;
    }

    function View(): Book
      reads this
    {
      Book(rows, rooms, folios, multiPlace)
    }

    method Create(id: Id, dto: CreateDto) returns (outcome: Outcome)
      modifies this`rows
      ensures (View(), outcome) == old(Apply(View(), CreateDecision(View(), id, dto)))
    {
      if dto.checkOut <= dto.checkIn {
        return Refused(DATE_CONFLICT);
      }
      if Find(IdOf(), rows, id).Some? {
        return Refused(ID_TAKEN);
      }
      if dto.room !in rooms || !rooms[dto.room].active {
        return Refused(ROOM_NOT_FOUND);
      }
      var guests := Guests(dto.adults, Or(dto.children, 0));
      var others := Others(rows, dto.room, dto.checkIn, dto.checkOut, None);
      var placeNumber := AllocatePlace(rooms[dto.room].capacity, multiPlace, guests, others);
      if placeNumber.None? {
        return Refused(NO_PLACE_AVAILABLE);
      }
      var row := Row(id, dto.room, rooms[dto.room].roomType, dto.checkIn, dto.checkOut, guests, Or(dto.status, CONFIRMED),
                     placeNumber.value, 1, dto.channelManaged, dto.notes, None, None);
      rows := Put(IdOf(), rows, row);
      outcome := Done(row);
    }

    /** Whether a fact may be recorded from the current status; leaving needs a settled bill. */
    method AdmitFact(id: Id, fact: Status, status: Status) returns (refusal: Option<Refusal>)
      ensures refusal == FactRefusal(View(), id, fact, status)
    {
      if status !in AdmittedFrom(fact) {
        return Some(WRONG_STATUS);
      }
      if fact == CHECKED_OUT {
        var settled := HasZeroBalance(id);
        if !settled {
          return Some(UNSETTLED_BALANCE);
        }
      }
      refusal := None;
    }

    method HasZeroBalance(id: Id) returns (settled: bool)
      ensures settled == Settled(View(), id)
    {
      if id !in folios {
        return true;
      }
      var balance := Charged(folios[id].charges) - Paid(folios[id].payments);
      settled := !(balance > 1);
    }

    /** The traces of a fact: its time on the row, and a vacated room left to be cleaned. */
    method StampFact(id: Id, fact: Status, room: Id, at: Time)
      requires Find(IdOf(), rows, id).Some? && Find(IdOf(), rows, id).value.id == id
      modifies this`rows, this`rooms
      ensures rows == Put(IdOf(), old(rows), Stamp(old(Find(IdOf(), rows, id).value), fact, at))
      ensures rooms == if Vacated(fact, room).Some? then MakeDirty(old(rooms), room) else old(rooms)
    {
      var row := Find(IdOf(), rows, id).value;
      PutAgain(IdOf(), rows, row, row);
      PutSame(IdOf(), rows, row);
      if fact == CHECKED_IN {
        rows := Put(IdOf(), rows, row.(checkedInAt := Some(at)));
      }
      if fact == CHECKED_OUT {
        rows := Put(IdOf(), rows, row.(checkedOutAt := Some(at)));
        rooms := MakeDirty(rooms, room);
      }
    }

    /** The checks an edit passes before its place is looked for, in their order. */
    method CheckEdit(cur: Row, dto: UpdateDto, fromChannel: bool) returns (refusal: Option<Refusal>)
      ensures refusal == EarlyRefusal(View(), cur, dto, fromChannel)
    {
      if cur.version != dto.version {
        return Some(VERSION_MISMATCH);
      }
      if cur.channelManaged && !fromChannel
         && ((dto.adults.Some? && dto.adults.value != cur.guests.adults) || (dto.children.Some? && dto.children.value != cur.guests.children)) {
        return Some(CHANNEL_GUESTS);
      }
      if Or(dto.checkOut, cur.checkOut) <= Or(dto.checkIn, cur.checkIn) {
        return Some(DATE_CONFLICT);
      }
      var status := Or(dto.status, cur.status);
      if status != cur.status && IsFact(status) {
        refusal := AdmitFact(cur.id, status, cur.status);
        if refusal.Some? {
          return refusal;
        }
      }
      if status != cur.status && status == CANCELLED {
        return CancelRefusal(cur, fromChannel);
      }
      refusal := None;
    }

    /** Writes the row and, for a new fact, its traces on top of it. */
    method Store(row: Row, fact: Option<Status>, at: Time) returns (stored: Row)
      modifies this`rows, this`rooms
      ensures stored == if fact.Some? then Stamp(row, fact.value, at) else row
      ensures rows == Put(IdOf(), old(rows), stored)
      ensures rooms == if fact.Some? && Vacated(fact.value, row.room).Some? then MakeDirty(old(rooms), row.room) else old(rooms)
    {
      ghost var was := rows;
      rows := Put(IdOf(), rows, row);
      stored := row;
      if fact.Some? {
        PutMeaning(IdOf(), was, row, row.id);
        StampFact(row.id, fact.value, row.room, at);
        stored := Stamp(row, fact.value, at);
        PutAgain(IdOf(), was, row, stored);
      }
    }

    /** Stores the edited row and, for a new fact, its traces. */
    method WriteEdit(cur: Row, dto: UpdateDto, place: int, at: Time) returns (row: Row)
      requires Find(IdOf(), rows, cur.id) == Some(cur)
      modifies this`rows, this`rooms
      ensures row == EditedRow(old(View()), cur, dto, place, at)
      ensures rows == Put(IdOf(), old(rows), row)
      ensures rooms == if FactOf(cur, dto).Some? && Vacated(FactOf(cur, dto).value, row.room).Some?
                       then MakeDirty(old(rooms), row.room) else old(rooms)
    {
      var status := Or(dto.status, cur.status);
      row := cur.(room := Or(dto.room, cur.room), roomType := NewRoomType(View(), cur, dto),
                  checkIn := Or(dto.checkIn, cur.checkIn), checkOut := Or(dto.checkOut, cur.checkOut), guests := NewGuests(cur, dto),
                  status := status, notes := NewNotes(cur, dto), place := place, version := cur.version + 1);
      row := Store(row, if status != cur.status && IsFact(status) then Some(status) else None, at);
    }

    method Update(id: Id, dto: UpdateDto, fromChannel: bool, at: Time) returns (outcome: Outcome)
      modifies this`rows, this`rooms
      ensures (View(), outcome) == old(Apply(View(), UpdateDecision(View(), id, dto, fromChannel, at)))
    {
      var found := Find(IdOf(), rows, id);
      if found.None? {
        return Refused(NOT_FOUND);
      }
      var cur := found.value;
      FoundId(rows, id);
      var refusal := CheckEdit(cur, dto, fromChannel);
      if refusal.Some? {
        return Refused(refusal.value);
      }
      var placement := ResolvePlace(cur, dto);
      if placement.Unplaced? {
        return Refused(placement.reason);
      }
      var row := WriteEdit(cur, dto, placement.place, at);
      outcome := Done(row);
    }

    /** The edited reservation's place: the one asked for, its own if still free, or a new one. */
    method ResolvePlace(cur: Row, dto: UpdateDto) returns (placement: Placement)
      ensures placement == PlaceFor(View(), cur, dto)
    {
      if !AsksForPlace(dto) {
        return PlaceAt(cur.place);
      }
      var room := Or(dto.room, cur.room);
      if room !in rooms || !rooms[room].active {
        return Unplaced(ROOM_NOT_FOUND);
      }
      var capacity, guests := rooms[room].capacity, NewGuests(cur, dto);
      var others := Others(rows, room, Or(dto.checkIn, cur.checkIn), Or(dto.checkOut, cur.checkOut), Some(cur.id));
      var need := PlacesOf(guests, capacity, multiPlace);
      if dto.place.Some? {
        return if SpanFree(dto.place.value, need, capacity, multiPlace, others) then PlaceAt(dto.place.value) else Unplaced(BOOKING_CONFLICT);
      }
      if (dto.room.Some? && dto.room.value != cur.room) || !SpanFree(cur.place, need, capacity, multiPlace, others) {
        var freePlace := AllocatePlace(capacity, multiPlace, guests, others);
        return if freePlace.Some? then PlaceAt(freePlace.value) else Unplaced(NO_PLACE_AVAILABLE);
      }
      placement := PlaceAt(cur.place);
    }

    method Swap(idA: Id, idB: Id, versionA: int, versionB: int) returns (outcome: Outcome)
      modifies this`rows
      ensures (View(), outcome) == old(SwapOn(View(), idA, idB, versionA, versionB))
    {
      var x, y := Find(IdOf(), rows, idA), Find(IdOf(), rows, idB);
      if idA == idB || x.None? || y.None? {
        return Refused(NOT_FOUND);
      }
      var rowA, rowB := x.value, y.value;
      if rowA.version != versionA || rowB.version != versionB {
        return Refused(VERSION_MISMATCH);
      }
      if rowA.room != rowB.room {
        return Refused(DIFFERENT_ROOMS);
      }
      var resA, resB := rowA.(place := rowB.place, version := rowA.version + 1), rowB.(place := rowA.place, version := rowB.version + 1);
      rows := Put(IdOf(), rows, resA);
      rows := Put(IdOf(), rows, resB);
      outcome := Swapped(resA, resB);
    }

    method RecordFact(id: Id, fact: Status, at: Time) returns (outcome: Outcome)
      requires IsFact(fact)
      modifies this`rows, this`rooms
      ensures (View(), outcome) == old(Apply(View(), FactDecision(View(), id, fact, at)))
    {
      var found := Find(IdOf(), rows, id);
      if found.None? {
        return Refused(NOT_FOUND);
      }
      var cur := found.value;
      FoundId(rows, id);
      var refusal := AdmitFact(id, fact, cur.status);
      if refusal.Some? {
        return Refused(refusal.value);
      }
      var row := Store(cur.(status := fact, version := cur.version + 1), Some(fact), at);
      outcome := Done(row);
    }

    method Cancel(id: Id, reason: Option<string>, fromChannel: bool) returns (outcome: Outcome)
      modifies this`rows
      ensures (View(), outcome) == old(Apply(View(), CancelDecision(View(), id, reason, fromChannel)))
    {
      var found := Find(IdOf(), rows, id);
      if found.None? {
        return Refused(NOT_FOUND);
      }
      var refusal := CancelRefusal(found.value, fromChannel);
      if refusal.Some? {
        return Refused(refusal.value);
      }
      var suffix := if reason.Some? && reason.value != "" then "\n[Cancelled: " + reason.value + "]" else "";
      var row := found.value.(status := CANCELLED, version := found.value.version + 1, notes := Some(Or(found.value.notes, "") + suffix));
      rows := Put(IdOf(), rows, row);
      outcome := Done(row);
    }
  }

  lemma FoundId(rows: seq<Row>, id: Id)
    ensures Find(IdOf(), rows, id).Some? ==> Find(IdOf(), rows, id).value.id == id
  {
    FindMeaning(IdOf(), rows, id);
  }
}
