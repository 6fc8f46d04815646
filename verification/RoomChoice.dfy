/** The room a partner's reservation goes to, chosen before the reservation is created. */
module RoomChoice {
  import opened Options
  import opened Sequences
  import opened Tariffs
  import opened RoomPlaces
  import opened ReservationBook

  /** What the search sends to the rule of places: only how many people. */
  function Party(guests: nat): Guests {
    Guests(Max(1, guests), 0)
  }

  function OnNights(checkIn: Day, checkOut: Day, ids: seq<Id>): Row -> bool {
    (r: Row) => r.room in ids && r.checkIn < checkOut && r.checkOut > checkIn && Live(r.status)
  }

  function InRoom(room: Id): Row -> bool {
    (r: Row) => r.room == room
  }

  function Fits(b: Book, room: Id, checkIn: Day, checkOut: Day, guests: nat): bool
    requires room in b.rooms
  {
    Allocate(b.rooms[room].capacity, b.multiPlace, Party(guests), Others(b.rows, room, checkIn, checkOut, None)).Some?
  }

  /** The holders of each room, collected in one pass over the rows found. */
  method GatherByRoom(res: seq<Row>) returns (byRoom: map<Id, seq<PlaceHolder>>)
    ensures forall id :: Listed(byRoom, id) == Map(HolderOf(), Filter(InRoom(id), res))
  {
    byRoom := map[];
    for i := 0 to |res|
      invariant forall id :: Listed(byRoom, id) == Map(HolderOf(), Filter(InRoom(id), res[..i]))
    {
      forall id ensures Map(HolderOf(), Filter(InRoom(id), res[..i+1]))
                        == Map(HolderOf(), Filter(InRoom(id), res[..i])) + if res[i].room == id then [HolderOf()(res[i])] else [] {
        FilterNext(InRoom(id), res, i);
      }
      byRoom := byRoom[res[i].room := Listed(byRoom, res[i].room) + [HolderOf()(res[i])]];
    }
    assert res[..|res|] == res;
  }

  /** Which of the rooms take the party: one query for all of them, then the rule of places room by room. */
  method RoomsFitByPlaces(b: Book, ids: seq<Id>, checkIn: Day, checkOut: Day, guests: nat) returns (out: map<Id, bool>)
    requires forall id :: id in ids ==> id in b.rooms
    ensures forall id :: id in out <==> id in ids
    ensures forall id :: id in ids ==> out[id] == Fits(b, id, checkIn, checkOut, guests)
  {
    out := map[];
    var byRoom := GatherByRoom(Filter(OnNights(checkIn, checkOut, ids), b.rows));
    for i := 0 to |ids|
      invariant forall id :: id in out <==> id in ids[..i]
      invariant forall id :: id in ids[..i] ==> out[id] == Fits(b, id, checkIn, checkOut, guests)
    {
      var fits := FitsOne(b, ids, ids[i], Listed(byRoom, ids[i]), checkIn, checkOut, guests);
      assert ids[..i+1] == ids[..i] + [ids[i]];
      out := out[ids[i] := fits];
    }
    assert ids[..|ids|] == ids;
  }

  method FitsOne(b: Book, ghost ids: seq<Id>, id: Id, others: seq<PlaceHolder>, checkIn: Day, checkOut: Day, guests: nat) returns (fits: bool)
    requires id in ids && id in b.rooms
    requires others == Map(HolderOf(), Filter(InRoom(id), Filter(OnNights(checkIn, checkOut, ids), b.rows)))
    ensures fits == Fits(b, id, checkIn, checkOut, guests)
  {
    GatheredAreOthers(b, ids, id, checkIn, checkOut);
    var place := AllocatePlace(b.rooms[id].capacity, b.multiPlace, Party(guests), others);
    fits := place.Some?;
  }

  function Listed(byRoom: map<Id, seq<PlaceHolder>>, id: Id): seq<PlaceHolder> {
    if id in byRoom then byRoom[id] else []
  }

  lemma GatheredAreOthers(b: Book, ids: seq<Id>, id: Id, checkIn: Day, checkOut: Day)
    requires id in ids
    ensures Map(HolderOf(), Filter(InRoom(id), Filter(OnNights(checkIn, checkOut, ids), b.rows))) == Others(b.rows, id, checkIn, checkOut, None)
  {
    GatheredRows(ids, id, checkIn, checkOut, b.rows);
  }

  lemma {:induction false} GatheredRows(ids: seq<Id>, id: Id, checkIn: Day, checkOut: Day, rows: seq<Row>)
    requires id in ids
    ensures Filter(InRoom(id), Filter(OnNights(checkIn, checkOut, ids), rows)) == Filter(Overlapping(id, checkIn, checkOut, None), rows)
  {
    if rows != [] {
      GatheredRows(ids, id, checkIn, checkOut, rows[1..]);
      FilterConcat(InRoom(id), Filter(OnNights(checkIn, checkOut, ids), [rows[0]]), Filter(OnNights(checkIn, checkOut, ids), rows[1..]));
      assert Filter(OnNights(checkIn, checkOut, ids), rows)
             == Filter(OnNights(checkIn, checkOut, ids), [rows[0]]) + Filter(OnNights(checkIn, checkOut, ids), rows[1..]);
    }
  }

  /** Whether creating the reservation in a room would be accepted. */
  function Accepts(b: Book, id: Id, dto: CreateDto, room: Id): bool {
    CreateDecision(b, id, dto.(room := room)).Write?
  }

  /** The search and the creation agree: a room fits exactly when the creation accepts it. */
  lemma FitsIffAccepted(b: Book, id: Id, dto: CreateDto, room: Id)
    requires room in b.rooms && b.rooms[room].active && RowAt(b, id).None? && dto.checkIn < dto.checkOut
    ensures Fits(b, room, dto.checkIn, dto.checkOut, dto.adults + Or(dto.children, 0)) <==> Accepts(b, id, dto, room)
  {
    var others := Others(b.rows, room, dto.checkIn, dto.checkOut, None);
    RoomFitsIff(b.rooms[room].capacity, b.multiPlace, Party(dto.adults + Or(dto.children, 0)), others);
    RoomFitsIff(b.rooms[room].capacity, b.multiPlace, Guests(dto.adults, Or(dto.children, 0)), others);
  }

  /** The first room of the category, in the order of their numbers, that takes the party. */
  method PickAvailableRoom(b: Book, ids: seq<Id>, checkIn: Day, checkOut: Day, guests: nat) returns (room: Option<Id>)
    requires forall r :: r in ids ==> r in b.rooms
    ensures room == FirstFitting(b, ids, checkIn, checkOut, guests)
  {
    var fits := RoomsFitByPlaces(b, ids, checkIn, checkOut, guests);
    for i := 0 to |ids|
      invariant FirstFitting(b, ids, checkIn, checkOut, guests) == FirstFitting(b, ids[i..], checkIn, checkOut, guests)
    {
      if fits[ids[i]] {
        return Some(ids[i]);
      }
    }
    room := None;
  }

  function FirstFitting(b: Book, ids: seq<Id>, checkIn: Day, checkOut: Day, guests: nat): Option<Id>
    requires forall r :: r in ids ==> r in b.rooms
  {
    if ids == [] then None
    else if Fits(b, ids[0], checkIn, checkOut, guests) then Some(ids[0])
    else FirstFitting(b, ids[1..], checkIn, checkOut, guests)
  }

  /** The room found is one the creation accepts, and none is found only when it would accept none. */
  lemma {:induction false} PickedIsAccepted(b: Book, id: Id, dto: CreateDto, ids: seq<Id>)
    requires RowAt(b, id).None? && dto.checkIn < dto.checkOut
    requires forall r :: r in ids ==> r in b.rooms && b.rooms[r].active
    ensures match FirstFitting(b, ids, dto.checkIn, dto.checkOut, dto.adults + Or(dto.children, 0))
            case None => forall r :: r in ids ==> !Accepts(b, id, dto, r)
            case Some(r) => exists i :: 0 <= i < |ids| && ids[i] == r && FirstAccepting(b, id, dto, ids, i)
  {
    if ids != [] {
      FitsIffAccepted(b, id, dto, ids[0]);
      PickedIsAccepted(b, id, dto, ids[1..]);
      var picked := FirstFitting(b, ids[1..], dto.checkIn, dto.checkOut, dto.adults + Or(dto.children, 0));
      if Accepts(b, id, dto, ids[0]) {
        assert FirstAccepting(b, id, dto, ids, 0);
      } else if picked.Some? {
        var i :| 0 <= i < |ids[1..]| && ids[1..][i] == picked.value && FirstAccepting(b, id, dto, ids[1..], i);
        assert ids[i+1] == picked.value;
        assert FirstAccepting(b, id, dto, ids, i + 1) by {
          assert forall j :: 0 < j < i + 1 ==> ids[j] == ids[1..][j-1];
        }
      }
    }
  }

  /** The room at `i` is the first of the list the creation accepts. */
  ghost predicate FirstAccepting(b: Book, id: Id, dto: CreateDto, ids: seq<Id>, i: nat) {
    i < |ids| && Accepts(b, id, dto, ids[i]) && forall j :: 0 <= j < i ==> !Accepts(b, id, dto, ids[j])
  }

  datatype Pinned = PinnedRoom(id: Id) | RoomNotFound | OtherCategory | NoLongerAvailable

  /** A room the partner named: it must be on sale, of the category, and take the party. */
  method ResolvePinnedRoom(b: Book, room: Id, category: Id, checkIn: Day, checkOut: Day, guests: nat) returns (r: Pinned)
    ensures r.RoomNotFound? <==> room !in b.rooms || !b.rooms[room].active
    ensures r.OtherCategory? <==> room in b.rooms && b.rooms[room].active && b.rooms[room].roomType != category
    ensures r.PinnedRoom? <==> room in b.rooms && b.rooms[room].active && b.rooms[room].roomType == category
                               && Fits(b, room, checkIn, checkOut, guests)
    ensures r.PinnedRoom? ==> r.id == room
  {
    if room !in b.rooms || !b.rooms[room].active {
      return RoomNotFound;
    }
    if b.rooms[room].roomType != category {
      return OtherCategory;
    }
    var fits := RoomsFitByPlaces(b, [room], checkIn, checkOut, guests);
    r := if fits[room] then PinnedRoom(room) else NoLongerAvailable;
  }
}
