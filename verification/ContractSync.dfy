/** The mirror of a partner's contract documents in a hotel: the set sent is the whole picture. */
module ContractSync {
  import opened Options
  import opened Sequences
  import opened KeyedRows
  import opened Tariffs
  import opened Fingerprint

  datatype Stored = Stored(id: Id, hotel: Id, doc: ContractDoc)

  /** A document's key: no amendment and an empty amendment are one, and so are the hours of the first day. */
  datatype ContractKey = ContractKey(contractNumber: string, amendment: string, service: string, validFrom: Day)

  function ContractKeyOf(): ContractDoc -> ContractKey {
    (d: ContractDoc) => ContractKey(d.contractNumber, if d.amendment.Some? then d.amendment.value else "", d.service, DayAt(d.validFrom))
  }

  function StoredKeyOf(): Stored -> ContractKey {
    (r: Stored) => ContractKeyOf()(r.doc)
  }

  function StoredId(): Stored -> Id {
    (r: Stored) => r.id
  }

  function DocOf(): Stored -> ContractDoc {
    (r: Stored) => r.doc
  }

  function Mine(hotel: Id, partner: Id): Stored -> bool {
    (r: Stored) => r.hotel == hotel && r.doc.partner == Some(partner)
  }

  function Foreign(hotel: Id, partner: Id): Stored -> bool {
    (r: Stored) => !Mine(hotel, partner)(r)
  }

  /** The partner's documents in the hotel. */
  function MineDocs(rows: seq<Stored>, hotel: Id, partner: Id): seq<ContractDoc> {
    Map(DocOf(), Filter(Mine(hotel, partner), rows))
  }

  function KeptBy(hotel: Id, partner: Id, incoming: seq<ContractDoc>): Stored -> bool {
    (r: Stored) => Mine(hotel, partner)(r) ==> Find(ContractKeyOf(), incoming, StoredKeyOf()(r)).Some?
  }

  function Own(partner: Id): ContractDoc -> ContractDoc {
    (d: ContractDoc) => d.(partner := Some(partner))
  }

  /** What was sent, one document a key, the last one sent. */
  function Incoming(partner: Id, documents: seq<ContractDoc>): seq<ContractDoc> {
    PutAll(ContractKeyOf(), [], Map(Own(partner), documents))
  }

  datatype Mirror = Mirror(rows: seq<Stored>, nextId: Id)

  /** Overwrites the row that had the key before the sync, or adds one. */
  function WriteDoc(m: Mirror, existing: seq<Stored>, hotel: Id, d: ContractDoc): Mirror {
    match FindLast(StoredKeyOf(), existing, ContractKeyOf()(d))
    case Some(e) => m.(rows := Put(StoredId(), m.rows, Stored(e.id, hotel, d)))
    case None => Mirror(m.rows + [Stored(m.nextId, hotel, d)], m.nextId + 1)
  }

  function WriteDocs(m: Mirror, existing: seq<Stored>, hotel: Id, docs: seq<ContractDoc>): Mirror {
    if docs == [] then m else WriteDoc(WriteDocs(m, existing, hotel, docs[..|docs|-1]), existing, hotel, docs[|docs|-1])
  }

  function Synced(m: Mirror, hotel: Id, partner: Id, documents: seq<ContractDoc>): Mirror {
    var incoming := Incoming(partner, documents);
    WriteDocs(m.(rows := Filter(KeptBy(hotel, partner, incoming), m.rows)), Filter(Mine(hotel, partner), m.rows), hotel, incoming)
  }

  ghost predicate ValidMirror(m: Mirror) {
    UniqueKeys(StoredId(), m.rows) && forall r :: r in m.rows ==> r.id < m.nextId
  }

  class ContractPrices {
    var rows: seq<Stored>
    var nextId: Id

    constructor ()
      ensures View() == Mirror([], 0) && ValidMirror(View())
    {
      rows, nextId := [], 0;
    }

    function View(): Mirror
      reads this
    {
      Mirror(rows, nextId)
    }

    method SyncContractPrices(hotel: Id, partner: Id, documents: seq<ContractDoc>) returns (kept: nat, removed: int)
      modifies this
      ensures View() == Synced(old(View()), hotel, partner, documents)
      ensures kept == |Incoming(partner, documents)|
      ensures removed == |old(rows)| - |Filter(KeptBy(hotel, partner, Incoming(partner, documents)), old(rows))|
    {
      var existing := Filter(Mine(hotel, partner), rows);
      var incoming := CollectIncoming(partner, documents);
      var staying := Filter(KeptBy(hotel, partner, incoming), rows);
      kept, removed := |incoming|, |rows| - |staying|;
      rows := staying;
      WriteIncoming(existing, hotel, incoming);
    }

    /** Overwrites the row a key had before the sync, or adds one. */
    method WriteIncoming(existing: seq<Stored>, hotel: Id, incoming: seq<ContractDoc>)
      modifies this
      ensures View() == WriteDocs(old(View()), existing, hotel, incoming)
    {
      ghost var m := View();
      for i := 0 to |incoming|
        invariant View() == WriteDocs(m, existing, hotel, incoming[..i])
      {
        assert incoming[..i+1][..i] == incoming[..i];
        var id := FindLast(StoredKeyOf(), existing, ContractKeyOf()(incoming[i]));
        if id.Some? {
          rows := Put(StoredId(), rows, Stored(id.value.id, hotel, incoming[i]));
        } else {
          rows := rows + [Stored(nextId, hotel, incoming[i])];
          nextId := nextId + 1;
        }
      }
      assert incoming[..|incoming|] == incoming;
    }
  }

  /** One document a key, the last one sent. */
  method CollectIncoming(partner: Id, documents: seq<ContractDoc>) returns (incoming: seq<ContractDoc>)
    ensures incoming == Incoming(partner, documents)
  {
    incoming := [];
    ghost var sent := Map(Own(partner), documents);
    for i := 0 to |documents|
      invariant incoming == PutAll(ContractKeyOf(), [], sent[..i])
    {
      assert sent[..i+1][..i] == sent[..i];
      incoming := Put(ContractKeyOf(), incoming, Own(partner)(documents[i]));
    }
    assert sent[..|documents|] == sent;
  }

  // ── What the sync leaves ─────────────────────────────────────────────────

  /** No two of the partner's stored documents share a key that is sent. */
  ghost predicate OneRowPerSentKey(existing: seq<Stored>, incoming: seq<ContractDoc>) {
    forall i, j :: 0 <= i < j < |existing| && StoredKeyOf()(existing[i]) == StoredKeyOf()(existing[j]) ==>
                     Find(ContractKeyOf(), incoming, StoredKeyOf()(existing[i])).None?
  }

  /** The rows that existed are still theirs: same identity, same partner, same key. */
  ghost predicate Grows(m: Mirror, existing: seq<Stored>, hotel: Id, partner: Id) {
    && ValidMirror(m)
    && (forall e, r :: e in existing && r in m.rows && r.id == e.id ==> Mine(hotel, partner)(r) && StoredKeyOf()(r) == StoredKeyOf()(e))
    && (forall e :: e in existing ==> e.id < m.nextId)
  }

  lemma {:induction false} IncomingMeaning(partner: Id, documents: seq<ContractDoc>, k: ContractKey)
    ensures UniqueKeys(ContractKeyOf(), Incoming(partner, documents))
    ensures Find(ContractKeyOf(), Incoming(partner, documents), k) == FindLast(ContractKeyOf(), Map(Own(partner), documents), k)
    ensures forall d :: d in Incoming(partner, documents) ==> d.partner == Some(partner)
  {
    PutAllMeaning(ContractKeyOf(), [], Map(Own(partner), documents), k);
    IncomingMembers([], Map(Own(partner), documents), partner);
  }

  lemma {:induction false} IncomingMembers(s: seq<ContractDoc>, docs: seq<ContractDoc>, partner: Id)
    requires (forall d :: d in s ==> d.partner == Some(partner)) && forall d :: d in docs ==> d.partner == Some(partner)
    ensures forall d :: d in PutAll(ContractKeyOf(), s, docs) ==> d.partner == Some(partner)
  {
    if docs != [] {
      IncomingMembers(s, docs[..|docs|-1], partner);
      OnlyPut(PutAll(ContractKeyOf(), s, docs[..|docs|-1]), docs[|docs|-1]);
    }
  }

  lemma {:induction false} OnlyPut(s: seq<ContractDoc>, d: ContractDoc)
    ensures forall x :: x in Put(ContractKeyOf(), s, d) ==> x == d || x in s
  {
    if s != [] && ContractKeyOf()(s[0]) != ContractKeyOf()(d) {
      OnlyPut(s[1..], d);
    }
  }

  /** Replacing one of the partner's rows by its identity is upserting it by its key among the partner's rows. */
  lemma {:induction false} PutAmongMine(mine: Stored -> bool, rows: seq<Stored>, e: Stored, x: Stored)
    requires UniqueKeys(StoredId(), rows) && UniqueKeys(StoredKeyOf(), Filter(mine, rows))
    requires e in rows && mine(e) && mine(x) && x.id == e.id && StoredKeyOf()(x) == StoredKeyOf()(e)
    ensures Filter(mine, Put(StoredId(), rows, x)) == Put(StoredKeyOf(), Filter(mine, rows), x)
  {
    if rows[0].id == x.id {
      assert rows[0] == e by {
        var i :| 0 <= i < |rows| && rows[i] == e;
      }
      FilterConcat(mine, [x], rows[1..]);
    } else {
      var rest := Filter(mine, rows[1..]);
      assert e in rows[1..];
      if mine(rows[0]) {
        assert Filter(mine, rows) == [rows[0]] + rest;
        assert Filter(mine, rows)[1..] == rest;
        assert e in rest;
        var i :| 0 <= i < |rest| && rest[i] == e;
        assert Filter(mine, rows)[i+1] == e;
      } else {
        assert Filter(mine, rows) == rest;
      }
      forall i, j | 0 <= i < j < |rest| ensures StoredKeyOf()(rest[i]) != StoredKeyOf()(rest[j]) {
        assert mine(rows[0]) ==> Filter(mine, rows)[i+1] == rest[i] && Filter(mine, rows)[j+1] == rest[j];
      }
      PutAmongMine(mine, rows[1..], e, x);
      FilterConcat(mine, [rows[0]], Put(StoredId(), rows[1..], x));
    }
  }

  lemma OverwriteGrows(m: Mirror, existing: seq<Stored>, hotel: Id, partner: Id, e: Stored, x: Stored)
    requires Grows(m, existing, hotel, partner) && e in existing
    requires forall f :: f in existing && e.id == f.id ==> e == f
    requires x.id == e.id && Mine(hotel, partner)(x) && StoredKeyOf()(x) == StoredKeyOf()(e)
    ensures Grows(m.(rows := Put(StoredId(), m.rows, x)), existing, hotel, partner)
  {
    PutUnique(StoredId(), m.rows, x);
  }

  lemma OverwriteForeign(m: Mirror, existing: seq<Stored>, hotel: Id, partner: Id, e: Stored, x: Stored)
    requires Grows(m, existing, hotel, partner) && e in existing
    requires x.id == e.id && Mine(hotel, partner)(x)
    ensures Filter(Foreign(hotel, partner), Put(StoredId(), m.rows, x)) == Filter(Foreign(hotel, partner), m.rows)
  {
    assert !Foreign(hotel, partner)(x);
    forall y | y in m.rows && StoredId()(y) == StoredId()(x) ensures !Foreign(hotel, partner)(y) {
      assert y.id == e.id;
    }
    PutOutside(StoredId(), Foreign(hotel, partner), m.rows, x);
  }

  lemma AppendGrows(m: Mirror, existing: seq<Stored>, hotel: Id, partner: Id, d: ContractDoc)
    requires Grows(m, existing, hotel, partner) && d.partner == Some(partner)
    ensures Grows(Mirror(m.rows + [Stored(m.nextId, hotel, d)], m.nextId + 1), existing, hotel, partner)
  {
    var x := Stored(m.nextId, hotel, d);
    assert forall r :: r in m.rows + [x] ==> r == x || r in m.rows;
  }

  lemma AppendForeign(m: Mirror, hotel: Id, partner: Id, d: ContractDoc)
    requires d.partner == Some(partner)
    ensures Filter(Foreign(hotel, partner), m.rows + [Stored(m.nextId, hotel, d)]) == Filter(Foreign(hotel, partner), m.rows)
  {
    var x := Stored(m.nextId, hotel, d);
    assert Mine(hotel, partner)(x) && !Foreign(hotel, partner)(x);
    FilterAll(Foreign(hotel, partner), [x]);
    FilterConcat(Foreign(hotel, partner), m.rows, [x]);
  }

  lemma WriteGrows(m: Mirror, existing: seq<Stored>, hotel: Id, partner: Id, d: ContractDoc)
    requires Grows(m, existing, hotel, partner) && d.partner == Some(partner)
    requires forall e, f :: e in existing && f in existing && e.id == f.id ==> e == f
    ensures Grows(WriteDoc(m, existing, hotel, d), existing, hotel, partner)
    ensures Filter(Foreign(hotel, partner), WriteDoc(m, existing, hotel, d).rows) == Filter(Foreign(hotel, partner), m.rows)
  {
    FindLastMeaning(StoredKeyOf(), existing, ContractKeyOf()(d));
    match FindLast(StoredKeyOf(), existing, ContractKeyOf()(d)) {
      case Some(e) =>
        OverwriteGrows(m, existing, hotel, partner, e, Stored(e.id, hotel, d));
        OverwriteForeign(m, existing, hotel, partner, e, Stored(e.id, hotel, d));
      case None =>
        AppendGrows(m, existing, hotel, partner, d);
        AppendForeign(m, hotel, partner, d);
    }
  }

  lemma {:induction false} WritesGrow(m: Mirror, existing: seq<Stored>, hotel: Id, partner: Id, docs: seq<ContractDoc>)
    requires Grows(m, existing, hotel, partner) && forall d :: d in docs ==> d.partner == Some(partner)
    requires forall e, f :: e in existing && f in existing && e.id == f.id ==> e == f
    ensures Grows(WriteDocs(m, existing, hotel, docs), existing, hotel, partner)
    ensures Filter(Foreign(hotel, partner), WriteDocs(m, existing, hotel, docs).rows) == Filter(Foreign(hotel, partner), m.rows)
  {
    if docs != [] {
      WritesGrow(m, existing, hotel, partner, docs[..|docs|-1]);
      WriteGrows(WriteDocs(m, existing, hotel, docs[..|docs|-1]), existing, hotel, partner, docs[|docs|-1]);
    }
  }

  lemma StartGrows(m: Mirror, hotel: Id, partner: Id, incoming: seq<ContractDoc>)
    requires ValidMirror(m)
    ensures Grows(m.(rows := Filter(KeptBy(hotel, partner, incoming), m.rows)), Filter(Mine(hotel, partner), m.rows), hotel, partner)
    ensures forall e, f :: e in m.rows && f in m.rows && e.id == f.id ==> e == f
  {
    FilterUnique(StoredId(), KeptBy(hotel, partner, incoming), m.rows);
    forall e, f | e in m.rows && f in m.rows && e.id == f.id ensures e == f {
      FindMeaning(StoredId(), m.rows, e.id);
    }
  }

  /** Other hotels' and other partners' documents are untouched, whatever is sent. */
  lemma OthersUntouched(m: Mirror, hotel: Id, partner: Id, documents: seq<ContractDoc>)
    requires ValidMirror(m)
    ensures ValidMirror(Synced(m, hotel, partner, documents))
    ensures Filter(Foreign(hotel, partner), Synced(m, hotel, partner, documents).rows) == Filter(Foreign(hotel, partner), m.rows)
  {
    var incoming := Incoming(partner, documents);
    IncomingMeaning(partner, documents, ContractKey("", "", "", 0));
    StartGrows(m, hotel, partner, incoming);
    WritesGrow(m.(rows := Filter(KeptBy(hotel, partner, incoming), m.rows)), Filter(Mine(hotel, partner), m.rows), hotel, partner, incoming);
    FilterFilter(KeptBy(hotel, partner, incoming), Foreign(hotel, partner), m.rows);
  }

  // ── Exactly the sent set ─────────────────────────────────────────────────

  /** Midway: the partner's documents are those kept with the ones written so far, and the rest still waits in its row. */
  ghost predicate Midway(m: Mirror, kept: seq<Stored>, hotel: Id, partner: Id, written: seq<ContractDoc>) {
    && MineDocs(m.rows, hotel, partner) == PutAll(ContractKeyOf(), Map(DocOf(), kept), written)
    && UniqueKeys(StoredKeyOf(), Filter(Mine(hotel, partner), m.rows))
    && forall e :: e in kept && (forall d :: d in written ==> ContractKeyOf()(d) != StoredKeyOf()(e)) ==> e in m.rows
  }

  lemma MineUnique(m: Mirror, hotel: Id, partner: Id, kept: seq<Stored>, written: seq<ContractDoc>)
    requires MineDocs(m.rows, hotel, partner) == PutAll(ContractKeyOf(), Map(DocOf(), kept), written)
    requires UniqueKeys(StoredKeyOf(), kept)
    ensures UniqueKeys(StoredKeyOf(), Filter(Mine(hotel, partner), m.rows))
  {
    assert UniqueKeys(ContractKeyOf(), Map(DocOf(), kept));
    PutAllMeaning(ContractKeyOf(), Map(DocOf(), kept), written, ContractKey("", "", "", 0));
    var mine := Filter(Mine(hotel, partner), m.rows);
    forall i, j | 0 <= i < j < |mine| ensures StoredKeyOf()(mine[i]) != StoredKeyOf()(mine[j]) {
      assert MineDocs(m.rows, hotel, partner)[i] == mine[i].doc && MineDocs(m.rows, hotel, partner)[j] == mine[j].doc;
    }
  }

  lemma NotKept(existing: seq<Stored>, kept: seq<Stored>, m: Mirror, hotel: Id, partner: Id, written: seq<ContractDoc>, k: ContractKey)
    requires Midway(m, kept, hotel, partner, written)
    requires forall e :: e in kept ==> StoredKeyOf()(e) != k
    requires forall d :: d in written ==> ContractKeyOf()(d) != k
    ensures forall r :: r in Filter(Mine(hotel, partner), m.rows) ==> StoredKeyOf()(r) != k
  {
    var docs := MineDocs(m.rows, hotel, partner);
    PutAllMeaning(ContractKeyOf(), Map(DocOf(), kept), written, k);
    FindMeaning(ContractKeyOf(), docs, k);
    FindMeaning(ContractKeyOf(), Map(DocOf(), kept), k);
    FindLastMeaning(ContractKeyOf(), written, k);
    forall d | d in Map(DocOf(), kept) ensures ContractKeyOf()(d) != k {
      var i :| 0 <= i < |kept| && Map(DocOf(), kept)[i] == d;
      assert kept[i] in kept;
    }
    var mine := Filter(Mine(hotel, partner), m.rows);
    forall r | r in mine ensures StoredKeyOf()(r) != k {
      var i :| 0 <= i < |mine| && mine[i] == r;
      assert docs[i] == r.doc && docs[i] in docs;
    }
  }

  lemma MidwayStep(m: Mirror, existing: seq<Stored>, kept: seq<Stored>, hotel: Id, partner: Id, written: seq<ContractDoc>, d: ContractDoc)
    requires ValidMirror(m) && Midway(m, kept, hotel, partner, written) && UniqueKeys(StoredKeyOf(), kept)
    requires d.partner == Some(partner) && forall w :: w in written ==> ContractKeyOf()(w) != ContractKeyOf()(d)
    requires forall e :: e in kept ==> Mine(hotel, partner)(e)
    requires FindLast(StoredKeyOf(), existing, ContractKeyOf()(d)) == Find(StoredKeyOf(), kept, ContractKeyOf()(d))
    ensures Midway(WriteDoc(m, existing, hotel, d), kept, hotel, partner, written + [d])
  {
    var k, mine, after := ContractKeyOf()(d), Filter(Mine(hotel, partner), m.rows), WriteDoc(m, existing, hotel, d);
    FindMeaning(StoredKeyOf(), kept, k);
    assert (written + [d])[..|written|] == written;
    match Find(StoredKeyOf(), kept, k) {
      case Some(e) =>
        var x := Stored(e.id, hotel, d);
        PutAmongMine(Mine(hotel, partner), m.rows, e, x);
        MapPut(DocOf(), StoredKeyOf(), ContractKeyOf(), mine, x);
        forall f | f in kept && (forall w :: w in written + [d] ==> ContractKeyOf()(w) != StoredKeyOf()(f)) ensures f in after.rows {
          StillWaiting(m, kept, written, d, e, f, x);
        }
      case None =>
        var x := Stored(m.nextId, hotel, d);
        NotKept(existing, kept, m, hotel, partner, written, k);
        FilterConcat(Mine(hotel, partner), m.rows, [x]);
        PutAbsent(StoredKeyOf(), mine, x);
        MapPut(DocOf(), StoredKeyOf(), ContractKeyOf(), mine, x);
        forall f | f in kept && (forall w :: w in written + [d] ==> ContractKeyOf()(w) != StoredKeyOf()(f)) ensures f in after.rows {
          assert forall w :: w in written ==> w in written + [d];
        }
    }
    MineUnique(after, hotel, partner, kept, written + [d]);
  }

  lemma StillWaiting(m: Mirror, kept: seq<Stored>, written: seq<ContractDoc>, d: ContractDoc, e: Stored, f: Stored, x: Stored)
    requires UniqueKeys(StoredId(), m.rows) && e in m.rows && StoredKeyOf()(e) == ContractKeyOf()(d) && x.id == e.id
    requires f in kept && forall w :: w in written + [d] ==> ContractKeyOf()(w) != StoredKeyOf()(f)
    requires (forall w :: w in written ==> ContractKeyOf()(w) != StoredKeyOf()(f)) ==> f in m.rows
    ensures f in Put(StoredId(), m.rows, x)
  {
    assert forall w :: w in written ==> w in written + [d];
    assert d in written + [d];
    FindMeaning(StoredId(), m.rows, e.id);
    PutMembers(StoredId(), m.rows, x, f);
  }

  /** The documents left to write have different keys, are the partner's, and find the same row among the existing and the kept. */
  ghost predicate Ready(existing: seq<Stored>, kept: seq<Stored>, partner: Id, docs: seq<ContractDoc>) {
    && UniqueKeys(ContractKeyOf(), docs)
    && forall d :: d in docs ==>
         d.partner == Some(partner) && FindLast(StoredKeyOf(), existing, ContractKeyOf()(d)) == Find(StoredKeyOf(), kept, ContractKeyOf()(d))
  }

  lemma ReadyPrefix(existing: seq<Stored>, kept: seq<Stored>, partner: Id, docs: seq<ContractDoc>)
    requires docs != [] && Ready(existing, kept, partner, docs)
    ensures Ready(existing, kept, partner, docs[..|docs|-1]) && docs[|docs|-1] in docs
    ensures forall d :: d in docs[..|docs|-1] ==> d.partner == Some(partner)
    ensures forall w :: w in docs[..|docs|-1] ==> ContractKeyOf()(w) != ContractKeyOf()(docs[|docs|-1])
  {
    forall d | d in docs[..|docs|-1] ensures d in docs {
    }
  }

  lemma {:induction false} MidwayRun(m: Mirror, existing: seq<Stored>, kept: seq<Stored>, hotel: Id, partner: Id, docs: seq<ContractDoc>)
    requires Grows(m, existing, hotel, partner) && Midway(m, kept, hotel, partner, []) && UniqueKeys(StoredKeyOf(), kept)
    requires forall e, f :: e in existing && f in existing && e.id == f.id ==> e == f
    requires Ready(existing, kept, partner, docs)
    requires forall e :: e in kept ==> Mine(hotel, partner)(e)
    ensures Midway(WriteDocs(m, existing, hotel, docs), kept, hotel, partner, docs)
  {
    if docs == [] {
    } else {
      var before, d := docs[..|docs|-1], docs[|docs|-1];
      var mid := WriteDocs(m, existing, hotel, before);
      ReadyPrefix(existing, kept, partner, docs);
      MidwayRun(m, existing, kept, hotel, partner, before);
      WritesGrow(m, existing, hotel, partner, before);
      MidwayNext(mid, existing, kept, hotel, partner, docs);
    }
  }

  lemma MidwayNext(mid: Mirror, existing: seq<Stored>, kept: seq<Stored>, hotel: Id, partner: Id, docs: seq<ContractDoc>)
    requires docs != [] && ValidMirror(mid) && Midway(mid, kept, hotel, partner, docs[..|docs|-1]) && UniqueKeys(StoredKeyOf(), kept)
    requires Ready(existing, kept, partner, docs)
    requires forall e :: e in kept ==> Mine(hotel, partner)(e)
    ensures Midway(WriteDoc(mid, existing, hotel, docs[|docs|-1]), kept, hotel, partner, docs)
  {
    var before, d := docs[..|docs|-1], docs[|docs|-1];
    ReadyPrefix(existing, kept, partner, docs);
    assert docs == before + [d];
    MidwayStep(mid, existing, kept, hotel, partner, before, d);
  }

  lemma KeptMeaning(rows: seq<Stored>, hotel: Id, partner: Id, incoming: seq<ContractDoc>, k: ContractKey)
    requires OneRowPerSentKey(Filter(Mine(hotel, partner), rows), incoming)
    ensures var kept := Filter(Mine(hotel, partner), Filter(KeptBy(hotel, partner, incoming), rows));
            && UniqueKeys(StoredKeyOf(), kept)
            && (forall e :: e in kept ==> Find(ContractKeyOf(), incoming, StoredKeyOf()(e)).Some?)
            && (Find(ContractKeyOf(), incoming, k).Some? ==>
                  FindLast(StoredKeyOf(), Filter(Mine(hotel, partner), rows), k) == Find(StoredKeyOf(), kept, k))
  {
    var existing := Filter(Mine(hotel, partner), rows);
    var keep := KeptBy(hotel, partner, incoming);
    FilterSwap(Mine(hotel, partner), keep, rows);
    var kept := Filter(keep, existing);
    FilterDropsRepeats(StoredKeyOf(), keep, existing);
    FindLastMeaning(StoredKeyOf(), existing, k);
    FindMeaning(StoredKeyOf(), kept, k);
  }

  /** With one stored row per sent key the partner's documents become exactly the ones sent: each key once, the last one sent for it. */
  lemma SyncedIsSent(m: Mirror, hotel: Id, partner: Id, documents: seq<ContractDoc>, k: ContractKey)
    requires ValidMirror(m) && OneRowPerSentKey(Filter(Mine(hotel, partner), m.rows), Incoming(partner, documents))
    ensures var docs := MineDocs(Synced(m, hotel, partner, documents).rows, hotel, partner);
            && UniqueKeys(ContractKeyOf(), docs)
            && Find(ContractKeyOf(), docs, k) == FindLast(ContractKeyOf(), Map(Own(partner), documents), k)
  {
    var incoming, existing := Incoming(partner, documents), Filter(Mine(hotel, partner), m.rows);
    var start := m.(rows := Filter(KeptBy(hotel, partner, incoming), m.rows));
    var kept := Filter(Mine(hotel, partner), start.rows);
    IncomingMeaning(partner, documents, k);
    StartGrows(m, hotel, partner, incoming);
    KeptMeaning(m.rows, hotel, partner, incoming, k);
    forall d | d in incoming
      ensures FindLast(StoredKeyOf(), existing, ContractKeyOf()(d)) == Find(StoredKeyOf(), kept, ContractKeyOf()(d))
    {
      FindMeaning(ContractKeyOf(), incoming, ContractKeyOf()(d));
      KeptMeaning(m.rows, hotel, partner, incoming, ContractKeyOf()(d));
    }
    MidwayRun(start, existing, kept, hotel, partner, incoming);
    SentOrKept(kept, incoming, k);
  }

  lemma SentOrKept(kept: seq<Stored>, incoming: seq<ContractDoc>, k: ContractKey)
    requires UniqueKeys(StoredKeyOf(), kept) && UniqueKeys(ContractKeyOf(), incoming)
    requires forall e :: e in kept ==> Find(ContractKeyOf(), incoming, StoredKeyOf()(e)).Some?
    ensures UniqueKeys(ContractKeyOf(), PutAll(ContractKeyOf(), Map(DocOf(), kept), incoming))
    ensures Find(ContractKeyOf(), PutAll(ContractKeyOf(), Map(DocOf(), kept), incoming), k) == Find(ContractKeyOf(), incoming, k)
  {
    assert UniqueKeys(ContractKeyOf(), Map(DocOf(), kept));
    PutAllMeaning(ContractKeyOf(), Map(DocOf(), kept), incoming, k);
    FindMeaning(ContractKeyOf(), incoming, k);
    FindLastMeaning(ContractKeyOf(), incoming, k);
    if FindLast(ContractKeyOf(), incoming, k).None? {
      FindMeaning(ContractKeyOf(), Map(DocOf(), kept), k);
      forall d | d in Map(DocOf(), kept) ensures ContractKeyOf()(d) != k {
        var i :| 0 <= i < |kept| && Map(DocOf(), kept)[i] == d;
        assert kept[i] in kept;
      }
    }
  }

  // ── Exactly when ─────────────────────────────────────────────────────────

  lemma {:induction false} WritesKeepIds(m: Mirror, existing: seq<Stored>, hotel: Id, docs: seq<ContractDoc>, id: Id)
    requires Find(StoredId(), m.rows, id).Some?
    ensures Find(StoredId(), WriteDocs(m, existing, hotel, docs).rows, id).Some?
  {
    if docs != [] {
      var before := WriteDocs(m, existing, hotel, docs[..|docs|-1]);
      WritesKeepIds(m, existing, hotel, docs[..|docs|-1], id);
      match FindLast(StoredKeyOf(), existing, ContractKeyOf()(docs[|docs|-1])) {
        case Some(e) => PutMeaning(StoredId(), before.rows, Stored(e.id, hotel, docs[|docs|-1]), id);
        case None =>
          FindMeaning(StoredId(), before.rows, id);
          FindMeaning(StoredId(), WriteDocs(m, existing, hotel, docs).rows, id);
      }
    }
  }

  /** A kept row is still there afterwards, still the partner's and still under its key. */
  lemma KeptRowStays(m: Mirror, hotel: Id, partner: Id, documents: seq<ContractDoc>, e: Stored) returns (r: Stored)
    requires ValidMirror(m) && e in m.rows && Mine(hotel, partner)(e) && KeptBy(hotel, partner, Incoming(partner, documents))(e)
    ensures r in Filter(Mine(hotel, partner), Synced(m, hotel, partner, documents).rows)
    ensures r.id == e.id && StoredKeyOf()(r) == StoredKeyOf()(e)
  {
    var incoming, existing := Incoming(partner, documents), Filter(Mine(hotel, partner), m.rows);
    var start := m.(rows := Filter(KeptBy(hotel, partner, incoming), m.rows));
    IncomingMeaning(partner, documents, StoredKeyOf()(e));
    StartGrows(m, hotel, partner, incoming);
    FindMeaning(StoredId(), start.rows, e.id);
    WritesGrow(start, existing, hotel, partner, incoming);
    WritesKeepIds(start, existing, hotel, incoming, e.id);
    var after := Synced(m, hotel, partner, documents);
    FindMeaning(StoredId(), after.rows, e.id);
    r := Find(StoredId(), after.rows, e.id).value;
  }

  lemma TwoRowsOneKey(rows: seq<Stored>, x: Stored, y: Stored)
    requires x in rows && y in rows && x != y && StoredKeyOf()(x) == StoredKeyOf()(y)
    ensures !UniqueKeys(StoredKeyOf(), rows)
  {
    var i :| 0 <= i < |rows| && rows[i] == x;
    var j :| 0 <= j < |rows| && rows[j] == y;
    assert i < j || j < i;
  }

  /** What the sync promises: each key at most once, with the last document sent for it and nothing else. */
  ghost predicate ExactlySent(m: Mirror, hotel: Id, partner: Id, documents: seq<ContractDoc>) {
    && UniqueKeys(StoredKeyOf(), Filter(Mine(hotel, partner), m.rows))
    && forall k :: Find(ContractKeyOf(), MineDocs(m.rows, hotel, partner), k) == FindLast(ContractKeyOf(), Map(Own(partner), documents), k)
  }

  /**
   * The stored documents become exactly the ones sent if and only if no sent key was stored twice before. The
   * table's own index is finer than the key: it tells apart a missing and an empty amendment number, and moments
   * of one day.
   */
  lemma SyncExactIff(m: Mirror, hotel: Id, partner: Id, documents: seq<ContractDoc>)
    requires ValidMirror(m)
    ensures ExactlySent(Synced(m, hotel, partner, documents), hotel, partner, documents)
            <==> OneRowPerSentKey(Filter(Mine(hotel, partner), m.rows), Incoming(partner, documents))
  {
    var existing, incoming := Filter(Mine(hotel, partner), m.rows), Incoming(partner, documents);
    var after := Synced(m, hotel, partner, documents);
    if OneRowPerSentKey(existing, incoming) {
      forall k ensures Find(ContractKeyOf(), MineDocs(after.rows, hotel, partner), k) == FindLast(ContractKeyOf(), Map(Own(partner), documents), k)
      {
        SyncedIsSent(m, hotel, partner, documents, k);
      }
      SyncedIsSent(m, hotel, partner, documents, ContractKey("", "", "", 0));
      var mine := Filter(Mine(hotel, partner), after.rows);
      forall i, j | 0 <= i < j < |mine| ensures StoredKeyOf()(mine[i]) != StoredKeyOf()(mine[j]) {
        assert MineDocs(after.rows, hotel, partner)[i] == mine[i].doc && MineDocs(after.rows, hotel, partner)[j] == mine[j].doc;
      }
    } else {
      var i, j :| 0 <= i < j < |existing| && StoredKeyOf()(existing[i]) == StoredKeyOf()(existing[j])
                  && Find(ContractKeyOf(), incoming, StoredKeyOf()(existing[i])).Some?;
      assert existing[i] in existing && existing[j] in existing;
      FilterUnique(StoredId(), Mine(hotel, partner), m.rows);
      assert StoredId()(existing[i]) != StoredId()(existing[j]);
      var x := KeptRowStays(m, hotel, partner, documents, existing[i]);
      var y := KeptRowStays(m, hotel, partner, documents, existing[j]);
      TwoRowsOneKey(Filter(Mine(hotel, partner), after.rows), x, y);
    }
  }

  /** Two documents are one sheet: the same contract, amendment (a missing one is an empty one), service and first day. */
  predicate OneSheet(d: ContractDoc, e: ContractDoc) {
    && d.contractNumber == e.contractNumber && Or(d.amendment, "") == Or(e.amendment, "") && d.service == e.service
    && d.validFrom / 86_400_000 == e.validFrom / 86_400_000
  }

  lemma OneSheetIff(d: ContractDoc, e: ContractDoc)
    ensures OneSheet(d, e) <==> ContractKeyOf()(d) == ContractKeyOf()(e)
  {
  }

  /**
   * What an exact sync leaves the partner: every sheet sent, in its last version and with all that was in it, as the
   * partner's own, and nothing that was not sent.
   */
  lemma SheetsAsSent(m: Mirror, hotel: Id, partner: Id, documents: seq<ContractDoc>)
    requires ExactlySent(m, hotel, partner, documents)
    ensures forall i :: 0 <= i < |documents| && (forall j :: i < j < |documents| ==> !OneSheet(documents[j], documents[i])) ==>
              documents[i].(partner := Some(partner)) in MineDocs(m.rows, hotel, partner)
    ensures forall d :: d in MineDocs(m.rows, hotel, partner) ==>
              exists i :: 0 <= i < |documents| && d == documents[i].(partner := Some(partner))
    ensures forall a, b :: 0 <= a < b < |MineDocs(m.rows, hotel, partner)| ==>
              !OneSheet(MineDocs(m.rows, hotel, partner)[a], MineDocs(m.rows, hotel, partner)[b])
  {
    var sent, docs := Map(Own(partner), documents), MineDocs(m.rows, hotel, partner);
    DocsByKey(m, hotel, partner);
    forall a, b | 0 <= a < b < |docs| ensures !OneSheet(docs[a], docs[b]) {
      OneSheetIff(docs[a], docs[b]);
    }
    forall i | 0 <= i < |documents| && (forall j :: i < j < |documents| ==> !OneSheet(documents[j], documents[i]))
      ensures documents[i].(partner := Some(partner)) in docs
    {
      forall j | i < j < |documents| ensures ContractKeyOf()(sent[j]) != ContractKeyOf()(sent[i]) {
        OneSheetIff(documents[j], documents[i]);
      }
      FindLastIs(ContractKeyOf(), sent, i);
      FindMeaning(ContractKeyOf(), docs, ContractKeyOf()(sent[i]));
    }
    forall d | d in docs ensures exists i :: 0 <= i < |documents| && d == documents[i].(partner := Some(partner)) {
      FindMeaning(ContractKeyOf(), docs, ContractKeyOf()(d));
      FindLastMeaning(ContractKeyOf(), sent, ContractKeyOf()(d));
      var i :| 0 <= i < |sent| && sent[i] == d;
    }
  }

  lemma DocsByKey(m: Mirror, hotel: Id, partner: Id)
    requires UniqueKeys(StoredKeyOf(), Filter(Mine(hotel, partner), m.rows))
    ensures UniqueKeys(ContractKeyOf(), MineDocs(m.rows, hotel, partner))
  {
    var mine, docs := Filter(Mine(hotel, partner), m.rows), MineDocs(m.rows, hotel, partner);
    forall a, b | 0 <= a < b < |docs| ensures ContractKeyOf()(docs[a]) != ContractKeyOf()(docs[b]) {
      assert StoredKeyOf()(mine[a]) != StoredKeyOf()(mine[b]);
    }
  }

  // ── A key stored twice ───────────────────────────────────────────────────

  /** The table's unique index: two rows of a partner in a hotel differ in contract, amendment, service or first moment. */
  ghost predicate IndexHolds(m: Mirror) {
    forall i, j :: 0 <= i < j < |m.rows| && m.rows[i].hotel == m.rows[j].hotel && m.rows[i].doc.partner == m.rows[j].doc.partner ==>
                     IndexKey(m.rows[i].doc) != IndexKey(m.rows[j].doc)
  }

  function IndexKey(d: ContractDoc): (string, Option<string>, string, Moment) {
    (d.contractNumber, d.amendment, d.service, d.validFrom)
  }

  /** The sheet of one contract, received at some hour of its first day. */
  function Sheet(d: ContractDoc, hour: nat): ContractDoc {
    d.(validFrom := hour * 3_600_000)
  }

  /** One document put at two hours of its first day is stored twice; a sync that sends it leaves both rows. */
  lemma TwoHoursWitness(d: ContractDoc, hotel: Id, partner: Id)
    requires d.partner == Some(partner)
    ensures var m := Mirror([Stored(1, hotel, Sheet(d, 1)), Stored(2, hotel, Sheet(d, 2))], 3);
            && ValidMirror(m) && IndexHolds(m)
            && !ExactlySent(Synced(m, hotel, partner, [Sheet(d, 3)]), hotel, partner, [Sheet(d, 3)])
  {
    var x, y := Stored(1, hotel, Sheet(d, 1)), Stored(2, hotel, Sheet(d, 2));
    var m, documents := Mirror([x, y], 3), [Sheet(d, 3)];
    var existing, incoming, k := Filter(Mine(hotel, partner), m.rows), Incoming(partner, documents), StoredKeyOf()(x);
    FilterAll(Mine(hotel, partner), m.rows);
    IncomingMeaning(partner, documents, k);
    var sent := Map(Own(partner), documents);
    assert sent == [Sheet(d, 3)] && ContractKeyOf()(sent[0]) == k;
    assert FindLast(ContractKeyOf(), sent, k).Some?;
    assert existing[0] == x && existing[1] == y && StoredKeyOf()(y) == k;
    SyncExactIff(m, hotel, partner, documents);
  }

  // ── Repeating the sync ───────────────────────────────────────────────────

  lemma {:induction false} WritingBack(m: Mirror, existing: seq<Stored>, hotel: Id, docs: seq<ContractDoc>)
    requires forall d :: d in docs ==>
               && FindLast(StoredKeyOf(), existing, ContractKeyOf()(d)).Some?
               && var e := FindLast(StoredKeyOf(), existing, ContractKeyOf()(d)).value;
                  e == Stored(e.id, hotel, d) && Find(StoredId(), m.rows, e.id) == Some(e)
    ensures WriteDocs(m, existing, hotel, docs) == m
  {
    if docs != [] {
      var d := docs[|docs|-1];
      assert d in docs;
      WritingBack(m, existing, hotel, docs[..|docs|-1]);
      PutSame(StoredId(), m.rows, FindLast(StoredKeyOf(), existing, ContractKeyOf()(d)).value);
    }
  }

  /** Sending the same set again changes no row at all. */
  lemma ResyncChangesNothing(m: Mirror, hotel: Id, partner: Id, documents: seq<ContractDoc>)
    requires ValidMirror(m) && ExactlySent(m, hotel, partner, documents)
    ensures Synced(m, hotel, partner, documents) == m
  {
    var existing, incoming := Filter(Mine(hotel, partner), m.rows), Incoming(partner, documents);
    forall r | r in m.rows ensures KeptBy(hotel, partner, incoming)(r) {
      if Mine(hotel, partner)(r) {
        StoredIsSent(m, hotel, partner, documents, r);
      }
    }
    FilterAll(KeptBy(hotel, partner, incoming), m.rows);
    forall d | d in incoming
      ensures FindLast(StoredKeyOf(), existing, ContractKeyOf()(d)).Some?
      ensures var e := FindLast(StoredKeyOf(), existing, ContractKeyOf()(d)).value;
              e == Stored(e.id, hotel, d) && Find(StoredId(), m.rows, e.id) == Some(e)
    {
      SentIsStored(m, hotel, partner, documents, d);
    }
    WritingBack(m, existing, hotel, incoming);
  }

  lemma StoredIsSent(m: Mirror, hotel: Id, partner: Id, documents: seq<ContractDoc>, r: Stored)
    requires ExactlySent(m, hotel, partner, documents) && r in m.rows && Mine(hotel, partner)(r)
    ensures Find(ContractKeyOf(), Incoming(partner, documents), StoredKeyOf()(r)).Some?
  {
    var mine, docs := Filter(Mine(hotel, partner), m.rows), MineDocs(m.rows, hotel, partner);
    IncomingMeaning(partner, documents, StoredKeyOf()(r));
    assert r in mine;
    var i :| 0 <= i < |mine| && mine[i] == r;
    assert docs[i] == r.doc && docs[i] in docs;
    FindMeaning(ContractKeyOf(), docs, StoredKeyOf()(r));
    assert ContractKeyOf()(r.doc) == StoredKeyOf()(r);
  }

  lemma SentIsStored(m: Mirror, hotel: Id, partner: Id, documents: seq<ContractDoc>, d: ContractDoc)
    requires ValidMirror(m) && ExactlySent(m, hotel, partner, documents) && d in Incoming(partner, documents)
    ensures var found := FindLast(StoredKeyOf(), Filter(Mine(hotel, partner), m.rows), ContractKeyOf()(d));
            found.Some? && found.value == Stored(found.value.id, hotel, d) && Find(StoredId(), m.rows, found.value.id) == Some(found.value)
  {
    var mine, docs, k := Filter(Mine(hotel, partner), m.rows), MineDocs(m.rows, hotel, partner), ContractKeyOf()(d);
    IncomingMeaning(partner, documents, k);
    FindMeaning(ContractKeyOf(), Incoming(partner, documents), k);
    FindMeaning(ContractKeyOf(), docs, k);
    assert d in docs;
    var i :| 0 <= i < |docs| && docs[i] == d;
    assert mine[i] in mine && mine[i].doc == d;
    FindLastMeaning(StoredKeyOf(), mine, k);
    var e := FindLast(StoredKeyOf(), mine, k).value;
    var j :| 0 <= j < |mine| && mine[j] == e;
    assert StoredKeyOf()(mine[i]) == StoredKeyOf()(mine[j]);
    assert i == j;
    FindMeaning(StoredId(), m.rows, e.id);
  }
}
