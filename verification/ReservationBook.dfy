/**
 * The reservation book of one hotel: what creating, editing, swapping,
 * recording a fact and cancelling do to its rows, as functions of the book.
 */
module ReservationBook {
  import opened Options
  import opened Sequences
  import opened KeyedRows
  import opened Tariffs
  import opened RoomPlaces

  type Time = int

  datatype Status = NEW | CONFIRMED | CHECKED_IN | CHECKED_OUT | CANCELLED | NO_SHOW

  datatype Row = Row(id: Id, room: Id, roomType: Id, checkIn: Day, checkOut: Day, guests: Guests, status: Status, place: int,
                     version: int, channelManaged: bool, notes: Option<string>, checkedInAt: Option<Time>, checkedOutAt: Option<Time>)

  datatype Room = Room(roomType: Id, capacity: int, active: bool, dirty: bool)

  datatype Payment = Payment(amount: Cents, refund: bool)
  datatype Folio = Folio(charges: seq<Cents>, payments: seq<Payment>)

  /** The rows in the order the database returns them. */
  datatype Book = Book(rows: seq<Row>, rooms: map<Id, Room>, folios: map<Id, Folio>, multiPlace: bool)

  function IdOf(): Row -> Id {
    (r: Row) => r.id
  }

  function RowAt(b: Book, id: Id): Option<Row> {
    Find(IdOf(), b.rows, id)
  }

  // ── The check-out gate ───────────────────────────────────────────────────

  function Charged(charges: seq<Cents>): Cents {
    if charges == [] then 0 else charges[0] + Charged(charges[1..])
  }

  function Paid(payments: seq<Payment>): Cents {
    if payments == [] then 0
    else (if payments[0].refund then -payments[0].amount else payments[0].amount) + Paid(payments[1..])
  }

  function Balance(f: Folio): Cents {
    Charged(f.charges) - Paid(f.payments)
  }

  /** No folio owes nothing; otherwise the debt may be at most one hundredth. */
  function Settled(b: Book, id: Id): bool {
    id in b.folios ==> Balance(b.folios[id]) <= 1
  }

  lemma {:induction false} PaidSnoc(payments: seq<Payment>, p: Payment)
    ensures Paid(payments + [p]) == Paid(payments) + if p.refund then -p.amount else p.amount
  {
    if payments == [] {
      assert payments + [p] == [p] && [p][1..] == [];
    } else {
      assert (payments + [p])[0] == payments[0] && (payments + [p])[1..] == payments[1..] + [p];
      PaidSnoc(payments[1..], p);
    }
  }

  /** A payment opens the gate exactly when it leaves at most one hundredth owing; a refund moves the debt the other way. */
  lemma PaymentSettlesIff(b: Book, id: Id, p: Payment)
    requires id in b.folios
    ensures var paid := b.(folios := b.folios[id := b.folios[id].(payments := b.folios[id].payments + [p])]);
            && (!p.refund ==> (Settled(paid, id) <==> p.amount >= Balance(b.folios[id]) - 1))
            && (p.refund ==> (Settled(paid, id) <==> Balance(b.folios[id]) + p.amount <= 1))
  {
    PaidSnoc(b.folios[id].payments, p);
  }

  lemma {:induction false} ChargedSnoc(charges: seq<Cents>, amount: Cents)
    ensures Charged(charges + [amount]) == Charged(charges) + amount
  {
    if charges == [] {
      assert charges + [amount] == [amount] && [amount][1..] == [];
    } else {
      assert (charges + [amount])[0] == charges[0] && (charges + [amount])[1..] == charges[1..] + [amount];
      ChargedSnoc(charges[1..], amount);
    }
  }

  /** A bill without entries is settled, and a charge closes the gate exactly when it leaves more than one hundredth owing. */
  lemma ChargeUnsettlesIff(b: Book, id: Id, amount: Cents)
    requires id in b.folios
    ensures b.folios[id] == Folio([], []) ==> Balance(b.folios[id]) == 0 && Settled(b, id)
    ensures var charged := b.(folios := b.folios[id := b.folios[id].(charges := b.folios[id].charges + [amount])]);
            && Balance(charged.folios[id]) == Balance(b.folios[id]) + amount
            && (Settled(charged, id) <==> Balance(b.folios[id]) + amount <= 1)
  {
    ChargedSnoc(b.folios[id].charges, amount);
  }

  // ── Who is in the room ───────────────────────────────────────────────────

  function Live(s: Status): bool {
    s != CANCELLED && s != NO_SHOW
  }

  function Overlapping(room: Id, checkIn: Day, checkOut: Day, exclude: Option<Id>): Row -> bool {
    (r: Row) => r.room == room && exclude != Some(r.id) && r.checkIn < checkOut && r.checkOut > checkIn && Live(r.status)
  }

  function HolderOf(): Row -> PlaceHolder {
    (r: Row) => PlaceHolder(r.place, r.guests)
  }

  function Others(rows: seq<Row>, room: Id, checkIn: Day, checkOut: Day, exclude: Option<Id>): seq<PlaceHolder> {
    Map(HolderOf(), Filter(Overlapping(room, checkIn, checkOut, exclude), rows))
  }

  /** A party of `need` from `start` shares no place with the holder. */
  function Apart(start: int, need: int, o: PlaceHolder): bool {
    start + need - 1 < o.place || o.place + PlacesOf(o.guests, 0, true) - 1 < start
  }

  function SpanFree(start: int, need: int, capacity: int, multiPlace: bool, others: seq<PlaceHolder>): bool {
    && start >= 1
    && start + (if multiPlace then need else 1) - 1 <= capacity
    && (if multiPlace then forall o :: o in others ==> Apart(start, need, o) else others == [])
  }

  // ── What an operation decides ────────────────────────────────────────────

  datatype Refusal = NOT_FOUND | VERSION_MISMATCH | CHANNEL_GUESTS | DATE_CONFLICT | WRONG_STATUS | UNSETTLED_BALANCE
                   | CHANNEL_MANAGED | ALREADY_CLOSED | ROOM_NOT_FOUND | BOOKING_CONFLICT | NO_PLACE_AVAILABLE
                   | DIFFERENT_ROOMS | ID_TAKEN

  /** Either a refusal, or the row to store and the room that was vacated. */
  datatype Decision = Refuse(reason: Refusal) | Write(row: Row, vacated: Option<Id>)

  datatype Outcome = Done(row: Row) | Swapped(a: Row, b: Row) | Refused(reason: Refusal)

  function MakeDirty(rooms: map<Id, Room>, room: Id): map<Id, Room> {
    if room in rooms then rooms[room := rooms[room].(dirty := true)] else rooms
  }

  function Apply(b: Book, d: Decision): (Book, Outcome) {
    match d
    case Refuse(reason) => (b, Refused(reason))
    case Write(row, vacated) =>
      (b.(rows := Put(IdOf(), b.rows, row), rooms := if vacated.Some? then MakeDirty(b.rooms, vacated.value) else b.rooms), Done(row))
  }

  // ── Facts ────────────────────────────────────────────────────────────────

  function IsFact(s: Status): bool {
    s == CHECKED_IN || s == CHECKED_OUT || s == NO_SHOW
  }

  function AdmittedFrom(fact: Status): set<Status> {
    if fact == CHECKED_OUT then {CHECKED_IN} else {NEW, CONFIRMED}
  }

  function FactRefusal(b: Book, id: Id, fact: Status, status: Status): Option<Refusal> {
    if status !in AdmittedFrom(fact) then Some(WRONG_STATUS)
    else if fact == CHECKED_OUT && !Settled(b, id) then Some(UNSETTLED_BALANCE)
    else None
  }

  function Stamp(row: Row, fact: Status, at: Time): Row {
    match fact
    case CHECKED_IN => row.(checkedInAt := Some(at))
    case CHECKED_OUT => row.(checkedOutAt := Some(at))
    case _ => row
  }

  function Vacated(fact: Status, room: Id): Option<Id> {
    if fact == CHECKED_OUT then Some(room) else None
  }

  /** The buttons "check in", "check out", "no show". */
  function FactDecision(b: Book, id: Id, fact: Status, at: Time): Decision {
    match RowAt(b, id)
    case None => Refuse(NOT_FOUND)
    case Some(cur) =>
      var refusal := FactRefusal(b, id, fact, cur.status);
      if refusal.Some? then Refuse(refusal.value)
      else Write(Stamp(cur.(status := fact, version := cur.version + 1), fact, at), Vacated(fact, cur.room))
  }

  // ── Cancelling ───────────────────────────────────────────────────────────

  function CancelRefusal(cur: Row, fromChannel: bool): Option<Refusal> {
    if cur.channelManaged && !fromChannel then Some(CHANNEL_MANAGED)
    else if cur.status == CANCELLED || cur.status == CHECKED_OUT then Some(ALREADY_CLOSED)
    else None
  }

  function CancelDecision(b: Book, id: Id, reason: Option<string>, fromChannel: bool): Decision {
    match RowAt(b, id)
    case None => Refuse(NOT_FOUND)
    case Some(cur) =>
      var refusal := CancelRefusal(cur, fromChannel);
      var suffix := if reason.Some? && reason.value != "" then "\n[Cancelled: " + reason.value + "]" else "";
      if refusal.Some? then Refuse(refusal.value)
      else Write(cur.(status := CANCELLED, version := cur.version + 1, notes := Some(Or(cur.notes, "") + suffix)), None)
  }

  // ── Creating ─────────────────────────────────────────────────────────────

  /** What is sent; an unknown status is `None`. The identifier of the new row is drawn by the database, never twice. */
  datatype CreateDto = CreateDto(room: Id, checkIn: Day, checkOut: Day, adults: nat, children: Option<nat>, status: Option<Status>,
                                 notes: Option<string>, channelManaged: bool)

  function CreateDecision(b: Book, id: Id, dto: CreateDto): Decision {
    if dto.checkOut <= dto.checkIn then Refuse(DATE_CONFLICT)
    else if RowAt(b, id).Some? then Refuse(ID_TAKEN)
    else if dto.room !in b.rooms || !b.rooms[dto.room].active then Refuse(ROOM_NOT_FOUND)
    else
      var guests := Guests(dto.adults, Or(dto.children, 0));
      var place := Allocate(b.rooms[dto.room].capacity, b.multiPlace, guests, Others(b.rows, dto.room, dto.checkIn, dto.checkOut, None));
      if place.None? then Refuse(NO_PLACE_AVAILABLE)
      else Write(Row(id, dto.room, b.rooms[dto.room].roomType, dto.checkIn, dto.checkOut, guests, Or(dto.status, CONFIRMED),
                     place.value, 1, dto.channelManaged, dto.notes, None, None), None)
  }

  // ── Editing ──────────────────────────────────────────────────────────────

  datatype UpdateDto = UpdateDto(version: int, room: Option<Id>, checkIn: Option<Day>, checkOut: Option<Day>,
                                 adults: Option<nat>, children: Option<nat>, place: Option<int>, status: Option<Status>,
                                 notes: Option<string>)

  /** The edit sends a place, a room, a date or a guest count. */
  function AsksForPlace(dto: UpdateDto): bool {
    dto.place.Some? || dto.room.Some? || dto.checkIn.Some? || dto.checkOut.Some? || dto.adults.Some? || dto.children.Some?
  }

  function NewGuests(cur: Row, dto: UpdateDto): Guests {
    Guests(Or(dto.adults, cur.guests.adults), Or(dto.children, cur.guests.children))
  }

  function FactOf(cur: Row, dto: UpdateDto): Option<Status> {
    var status := Or(dto.status, cur.status);
    if status != cur.status && IsFact(status) then Some(status) else None
  }

  /** Everything that is checked before the place. */
  function EarlyRefusal(b: Book, cur: Row, dto: UpdateDto, fromChannel: bool): Option<Refusal> {
    var status := Or(dto.status, cur.status);
    var fact := FactOf(cur, dto);
    if cur.version != dto.version then Some(VERSION_MISMATCH)
    else if cur.channelManaged && !fromChannel && NewGuests(cur, dto) != cur.guests then Some(CHANNEL_GUESTS)
    else if Or(dto.checkOut, cur.checkOut) <= Or(dto.checkIn, cur.checkIn) then Some(DATE_CONFLICT)
    else if fact.Some? && FactRefusal(b, cur.id, fact.value, cur.status).Some? then FactRefusal(b, cur.id, fact.value, cur.status)
    else if status != cur.status && status == CANCELLED then CancelRefusal(cur, fromChannel)
    else None
  }

  datatype Placement = PlaceAt(place: int) | Unplaced(reason: Refusal)

  function Allocated(capacity: int, multiPlace: bool, guests: Guests, others: seq<PlaceHolder>): Placement {
    var place := Allocate(capacity, multiPlace, guests, others);
    if place.Some? then PlaceAt(place.value) else Unplaced(NO_PLACE_AVAILABLE)
  }

  /** The place the edited reservation gets. */
  function PlaceFor(b: Book, cur: Row, dto: UpdateDto): Placement {
    var room := Or(dto.room, cur.room);
    if !AsksForPlace(dto) then PlaceAt(cur.place)
    else if room !in b.rooms || !b.rooms[room].active then Unplaced(ROOM_NOT_FOUND)
    else
      var capacity, guests := b.rooms[room].capacity, NewGuests(cur, dto);
      var others := Others(b.rows, room, Or(dto.checkIn, cur.checkIn), Or(dto.checkOut, cur.checkOut), Some(cur.id));
      var need := PlacesOf(guests, capacity, b.multiPlace);
      if dto.place.Some? then
        if SpanFree(dto.place.value, need, capacity, b.multiPlace, others) then PlaceAt(dto.place.value) else Unplaced(BOOKING_CONFLICT)
      else if room != cur.room || !SpanFree(cur.place, need, capacity, b.multiPlace, others) then
        Allocated(capacity, b.multiPlace, guests, others)
      else PlaceAt(cur.place)
  }

  function NewRoomType(b: Book, cur: Row, dto: UpdateDto): Id {
    var room := Or(dto.room, cur.room);
    if room != cur.room && room in b.rooms then b.rooms[room].roomType else cur.roomType
  }

  function NewNotes(cur: Row, dto: UpdateDto): Option<string> {
    if dto.notes.None? then cur.notes else if dto.notes.value == "" then None else dto.notes
  }

  function EditedRow(b: Book, cur: Row, dto: UpdateDto, place: int, at: Time): Row {
    var row := cur.(room := Or(dto.room, cur.room), roomType := NewRoomType(b, cur, dto),
                    checkIn := Or(dto.checkIn, cur.checkIn), checkOut := Or(dto.checkOut, cur.checkOut), guests := NewGuests(cur, dto),
                    status := Or(dto.status, cur.status), notes := NewNotes(cur, dto), place := place, version := cur.version + 1);
    if FactOf(cur, dto).Some? then Stamp(row, FactOf(cur, dto).value, at) else row
  }

  function UpdateDecision(b: Book, id: Id, dto: UpdateDto, fromChannel: bool, at: Time): Decision {
    match RowAt(b, id)
    case None => Refuse(NOT_FOUND)
    case Some(cur) =>
      var refusal := EarlyRefusal(b, cur, dto, fromChannel);
      if refusal.Some? then Refuse(refusal.value)
      else
        match PlaceFor(b, cur, dto)
        case Unplaced(reason) => Refuse(reason)
        case PlaceAt(place) =>
          Write(EditedRow(b, cur, dto, place, at),
                if FactOf(cur, dto).Some? then Vacated(FactOf(cur, dto).value, Or(dto.room, cur.room)) else None)
  }

  // ── Swapping ─────────────────────────────────────────────────────────────

  function SwapOn(b: Book, idA: Id, idB: Id, versionA: int, versionB: int): (Book, Outcome) {
    var x, y := RowAt(b, idA), RowAt(b, idB);
    if idA == idB || x.None? || y.None? then (b, Refused(NOT_FOUND))
    else if x.value.version != versionA || y.value.version != versionB then (b, Refused(VERSION_MISMATCH))
    else if x.value.room != y.value.room then (b, Refused(DIFFERENT_ROOMS))
    else
      var newA := x.value.(place := y.value.place, version := x.value.version + 1);
      var newB := y.value.(place := x.value.place, version := y.value.version + 1);
      (b.(rows := Put(IdOf(), Put(IdOf(), b.rows, newA), newB)), Swapped(newA, newB))
  }

  // ── Runs ─────────────────────────────────────────────────────────────────

  datatype Event =
    | Create(id: Id, order: CreateDto)
    | Update(id: Id, edit: UpdateDto, fromChannel: bool, at: Time)
    | Swap(idA: Id, idB: Id, versionA: int, versionB: int)
    | RecordFact(id: Id, fact: Status, at: Time)
    | Cancel(id: Id, reason: Option<string>, fromChannel: bool)

  function Step(b: Book, e: Event): (Book, Outcome) {
    match e
    case Create(id, dto) => Apply(b, CreateDecision(b, id, dto))
    case Update(id, dto, fromChannel, at) => Apply(b, UpdateDecision(b, id, dto, fromChannel, at))
    case Swap(idA, idB, versionA, versionB) => SwapOn(b, idA, idB, versionA, versionB)
    case RecordFact(id, fact, at) => if IsFact(fact) then Apply(b, FactDecision(b, id, fact, at)) else (b, Refused(WRONG_STATUS))
    case Cancel(id, reason, fromChannel) => Apply(b, CancelDecision(b, id, reason, fromChannel))
  }

  function Run(b: Book, events: seq<Event>): Book
    decreases |events|
  {
    if events == [] then b else Run(Step(b, events[0]).0, events[1..])
  }

  ghost predicate UniqueIds(b: Book) {
    UniqueKeys(IdOf(), b.rows)
  }

  lemma ApplyUnique(b: Book, d: Decision)
    requires UniqueIds(b)
    ensures UniqueIds(Apply(b, d).0)
  {
    if d.Write? {
      PutUnique(IdOf(), b.rows, d.row);
    }
  }

  lemma StepUnique(b: Book, e: Event)
    requires UniqueIds(b)
    ensures UniqueIds(Step(b, e).0)
    ensures Step(b, e).0.multiPlace == b.multiPlace
  {
    match e
    case Swap(idA, idB, versionA, versionB) =>
      if Step(b, e).1.Swapped? {
        PutUnique(IdOf(), b.rows, Step(b, e).1.a);
        PutUnique(IdOf(), Put(IdOf(), b.rows, Step(b, e).1.a), Step(b, e).1.b);
      }
    case Create(id, dto) => ApplyUnique(b, CreateDecision(b, id, dto));
    case Update(id, dto, fromChannel, at) => ApplyUnique(b, UpdateDecision(b, id, dto, fromChannel, at));
    case RecordFact(id, fact, at) => ApplyUnique(b, FactDecision(b, id, fact, at));
    case Cancel(id, reason, fromChannel) => ApplyUnique(b, CancelDecision(b, id, reason, fromChannel));
  }

  // ── The button and the form ──────────────────────────────────────────────

  function StatusOnly(version: int, status: Status): UpdateDto {
    UpdateDto(version, None, None, None, None, None, None, Some(status), None)
  }

  /** Sending a new fact status through the form is pressing its button: the same book, the same answer, the same refusals. */
  lemma FormIsButton(b: Book, id: Id, fact: Status, fromChannel: bool, at: Time)
    requires IsFact(fact) && RowAt(b, id).Some?
    requires var cur := RowAt(b, id).value; cur.status != fact && cur.checkIn < cur.checkOut
    ensures Step(b, Update(id, StatusOnly(RowAt(b, id).value.version, fact), fromChannel, at)) == Step(b, RecordFact(id, fact, at))
  {
    FindMeaning(IdOf(), b.rows, id);
  }

  /** Sending the status the row already has is no new fact: only the version moves. */
  lemma RepeatedStatusIsNoFact(b: Book, id: Id, fromChannel: bool, at: Time)
    requires RowAt(b, id).Some? && RowAt(b, id).value.checkIn < RowAt(b, id).value.checkOut
    ensures var cur := RowAt(b, id).value;
            Step(b, Update(id, StatusOnly(cur.version, cur.status), fromChannel, at))
            == (b.(rows := Put(IdOf(), b.rows, cur.(version := cur.version + 1))), Done(cur.(version := cur.version + 1)))
  {
  }

  /** "Cancelled" sent through the form and the button agree on everything but the note the button leaves. */
  lemma CancelFormIsButton(b: Book, id: Id, reason: Option<string>, fromChannel: bool, at: Time)
    requires RowAt(b, id).Some?
    requires var cur := RowAt(b, id).value; cur.status != CANCELLED && cur.checkIn < cur.checkOut
    ensures var form := UpdateDecision(b, id, StatusOnly(RowAt(b, id).value.version, CANCELLED), fromChannel, at);
            var button := CancelDecision(b, id, reason, fromChannel);
            && (form.Refuse? <==> button.Refuse?)
            && (form.Refuse? ==> form == button)
            && (form.Write? ==> form.row.(notes := None) == button.row.(notes := None) && form.vacated == button.vacated)
  {
  }

  // ── What no step does to a row ───────────────────────────────────────────

  /** Whether an event is the partner's own, about this row. */
  predicate FromChannel(e: Event, id: Id) {
    match e
    case Update(row, _, fromChannel, _) => fromChannel && row == id
    case Cancel(row, _, fromChannel) => fromChannel && row == id
    case _ => false
  }

  /** How many versions an event adds to a row. */
  function Touches(b: Book, e: Event, id: Id): nat {
    match Step(b, e).1
    case Refused(_) => 0
    case Done(row) => if row.id == id then 1 else 0
    case Swapped(x, y) => if x.id == id || y.id == id then 1 else 0
  }

  /** A row stays in the book, gains one version per change, and as the partner's keeps its guests and is not cancelled by the hotel. */
  ghost predicate Carries(before: Row, after: Row, changes: nat, channel: bool) {
    && after.version == before.version + changes
    && (changes == 0 ==> after == before)
    && after.channelManaged == before.channelManaged
    && (before.channelManaged && !channel ==>
          after.guests == before.guests && (after.status == CANCELLED ==> before.status == CANCELLED))
  }

  lemma WriteCarries(b: Book, d: Decision, id: Id, channel: bool)
    requires RowAt(b, id).Some?
    requires d.Write? && d.row.id == id ==> Carries(RowAt(b, id).value, d.row, 1, channel)
    ensures RowAt(Apply(b, d).0, id).Some?
    ensures Carries(RowAt(b, id).value, RowAt(Apply(b, d).0, id).value, if d.Write? && d.row.id == id then 1 else 0, channel)
  {
    if d.Write? {
      PutMeaning(IdOf(), b.rows, d.row, id);
    }
  }

  lemma UpdateCarries(b: Book, id: Id, dto: UpdateDto, fromChannel: bool, at: Time)
    requires UpdateDecision(b, id, dto, fromChannel, at).Write?
    ensures var row := UpdateDecision(b, id, dto, fromChannel, at).row;
            RowAt(b, id).Some? && row.id == id && Carries(RowAt(b, id).value, row, 1, fromChannel)
  {
    FindMeaning(IdOf(), b.rows, id);
    var cur := RowAt(b, id).value;
    assert EarlyRefusal(b, cur, dto, fromChannel).None?;
  }

  lemma SwapCarries(b: Book, idA: Id, idB: Id, versionA: int, versionB: int, id: Id)
    requires RowAt(b, id).Some?
    ensures var after := SwapOn(b, idA, idB, versionA, versionB);
            && RowAt(after.0, id).Some?
            && Carries(RowAt(b, id).value, RowAt(after.0, id).value, if after.1.Swapped? && (id == idA || id == idB) then 1 else 0, false)
            && (after.1.Swapped? ==> after.1.a.id == idA && after.1.b.id == idB)
  {
    FindMeaning(IdOf(), b.rows, idA);
    FindMeaning(IdOf(), b.rows, idB);
    var after := SwapOn(b, idA, idB, versionA, versionB);
    if after.1.Swapped? {
      PutMeaning(IdOf(), b.rows, after.1.a, id);
      PutMeaning(IdOf(), Put(IdOf(), b.rows, after.1.a), after.1.b, id);
    }
  }

  lemma StepCarries(b: Book, e: Event, id: Id)
    requires RowAt(b, id).Some?
    ensures RowAt(Step(b, e).0, id).Some?
    ensures Carries(RowAt(b, id).value, RowAt(Step(b, e).0, id).value, Touches(b, e, id), FromChannel(e, id))
  {
    match e
    case Create(other, dto) => WriteCarries(b, CreateDecision(b, other, dto), id, false);
    case Update(other, dto, fromChannel, at) =>
      var d := UpdateDecision(b, other, dto, fromChannel, at);
      if d.Write? {
        UpdateCarries(b, other, dto, fromChannel, at);
      }
      WriteCarries(b, d, id, fromChannel && other == id);
    case Swap(idA, idB, versionA, versionB) => SwapCarries(b, idA, idB, versionA, versionB, id);
    case RecordFact(other, fact, at) =>
      FindMeaning(IdOf(), b.rows, other);
      if IsFact(fact) {
        WriteCarries(b, FactDecision(b, other, fact, at), id, false);
      }
    case Cancel(other, reason, fromChannel) =>
      FindMeaning(IdOf(), b.rows, other);
      WriteCarries(b, CancelDecision(b, other, reason, fromChannel), id, fromChannel && other == id);
  }

  function Changes(b: Book, events: seq<Event>, id: Id): nat
    decreases |events|
  {
    if events == [] then 0 else Touches(b, events[0], id) + Changes(Step(b, events[0]).0, events[1..], id)
  }

  predicate AnyFromChannel(events: seq<Event>, id: Id) {
    exists e :: e in events && FromChannel(e, id)
  }

  /**
   * Over every run no row is lost, its version counts its successful changes,
   * and a partner's row keeps its guests and its life unless the partner acts on that very row.
   */
  lemma {:induction false} RunCarries(b: Book, events: seq<Event>, id: Id)
    requires RowAt(b, id).Some?
    ensures RowAt(Run(b, events), id).Some?
    ensures Carries(RowAt(b, id).value, RowAt(Run(b, events), id).value, Changes(b, events, id), AnyFromChannel(events, id))
    decreases |events|
  {
    if events != [] {
      var next := Step(b, events[0]).0;
      StepCarries(b, events[0], id);
      RunCarries(next, events[1..], id);
      assert FromChannel(events[0], id) ==> events[0] in events && AnyFromChannel(events, id);
      if AnyFromChannel(events[1..], id) {
        var e :| e in events[1..] && FromChannel(e, id);
        assert e in events;
      }
    }
  }

  // ── How a status may move ────────────────────────────────────────────────

  /**
   * A guest checks in, or is marked absent, only from a reservation that is new or confirmed; leaves only
   * after checking in and with a settled bill; and what is over cannot be cancelled. Each fact alone leaves its time.
   */
  ghost predicate LawfulMove(b: Book, before: Row, after: Row) {
    && (after.status != before.status ==>
          match after.status
          case CHECKED_IN => before.status == NEW || before.status == CONFIRMED
          case NO_SHOW => before.status == NEW || before.status == CONFIRMED
          case CHECKED_OUT => before.status == CHECKED_IN && Settled(b, before.id)
          case CANCELLED => before.status != CHECKED_OUT
          case _ => true)
    && (after.checkedInAt != before.checkedInAt ==> after.status == CHECKED_IN != before.status)
    && (after.checkedOutAt != before.checkedOutAt ==> after.status == CHECKED_OUT != before.status)
  }

  lemma WriteLawful(b: Book, d: Decision, id: Id)
    requires RowAt(b, id).Some?
    requires d.Write? && d.row.id == id ==> LawfulMove(b, RowAt(b, id).value, d.row)
    ensures RowAt(Apply(b, d).0, id).Some? && LawfulMove(b, RowAt(b, id).value, RowAt(Apply(b, d).0, id).value)
  {
    if d.Write? {
      PutMeaning(IdOf(), b.rows, d.row, id);
    }
  }

  lemma UpdateLawful(b: Book, id: Id, dto: UpdateDto, fromChannel: bool, at: Time)
    requires UpdateDecision(b, id, dto, fromChannel, at).Write?
    ensures RowAt(b, id).Some? && LawfulMove(b, RowAt(b, id).value, UpdateDecision(b, id, dto, fromChannel, at).row)
    ensures UpdateDecision(b, id, dto, fromChannel, at).row.id == id
  {
    FindMeaning(IdOf(), b.rows, id);
    assert EarlyRefusal(b, RowAt(b, id).value, dto, fromChannel).None?;
  }

  lemma SwapLawful(b: Book, idA: Id, idB: Id, versionA: int, versionB: int, id: Id)
    requires RowAt(b, id).Some?
    ensures var after := SwapOn(b, idA, idB, versionA, versionB).0;
            RowAt(after, id).Some? && LawfulMove(b, RowAt(b, id).value, RowAt(after, id).value)
  {
    FindMeaning(IdOf(), b.rows, idA);
    FindMeaning(IdOf(), b.rows, idB);
    var after := SwapOn(b, idA, idB, versionA, versionB);
    if after.1.Swapped? {
      PutMeaning(IdOf(), b.rows, after.1.a, id);
      PutMeaning(IdOf(), Put(IdOf(), b.rows, after.1.a), after.1.b, id);
    }
  }

  /** Whatever the step, by form, button, partner or swap, the status of every row moves lawfully. */
  lemma StatusesMoveLawfully(b: Book, e: Event, id: Id)
    requires RowAt(b, id).Some?
    ensures RowAt(Step(b, e).0, id).Some? && LawfulMove(b, RowAt(b, id).value, RowAt(Step(b, e).0, id).value)
  {
    match e
    case Create(other, dto) => WriteLawful(b, CreateDecision(b, other, dto), id);
    case Update(other, dto, fromChannel, at) =>
      if UpdateDecision(b, other, dto, fromChannel, at).Write? {
        UpdateLawful(b, other, dto, fromChannel, at);
      }
      WriteLawful(b, UpdateDecision(b, other, dto, fromChannel, at), id);
    case Swap(idA, idB, versionA, versionB) => SwapLawful(b, idA, idB, versionA, versionB, id);
    case RecordFact(other, fact, at) =>
      FindMeaning(IdOf(), b.rows, other);
      if IsFact(fact) {
        WriteLawful(b, FactDecision(b, other, fact, at), id);
      }
    case Cancel(other, reason, fromChannel) =>
      FindMeaning(IdOf(), b.rows, other);
      WriteLawful(b, CancelDecision(b, other, reason, fromChannel), id);
  }
}
