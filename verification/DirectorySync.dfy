/** A partner's directory of its legal entities and customers: sent whole, switched off rather than deleted. */
module DirectorySync {
  import opened Options
  import opened Sequences
  import opened KeyedRows

  /** A record as stored; the code is the key within the partner. */
  datatype Entry = Entry(code: string, name: string, inn: Option<string>, isActive: bool)

  /** A record as sent. */
  datatype SentEntry = SentEntry(code: string, name: string, inn: Option<string>)

  datatype Plan = Plan(upsert: seq<Entry>, deactivate: seq<string>) | DuplicateCode(code: string)

  predicate IsSpace(c: char) {
    c == ' ' || c == '\t' || c == '\n' || c == '\r'
  }

  function TrimLeft(s: string): string {
    if s != "" && IsSpace(s[0]) then TrimLeft(s[1..]) else s
  }

  function TrimRight(s: string): string {
    if s != "" && IsSpace(s[|s|-1]) then TrimRight(s[..|s|-1]) else s
  }

  function Trim(s: string): string {
    TrimRight(TrimLeft(s))
  }

  /** Trimming takes away spaces at both ends, all of them and nothing else. */
  lemma TrimMeaning(s: string)
    ensures exists i, j :: 0 <= i <= j <= |s| && Trim(s) == s[i..j] && (forall k :: 0 <= k < i || j <= k < |s| ==> IsSpace(s[k]))
    ensures Trim(s) != "" ==> !IsSpace(Trim(s)[0]) && !IsSpace(Trim(s)[|Trim(s)|-1])
  {
    var i := TrimmedLeft(s);
    var j := TrimmedRight(s[i..]);
    assert s[i..][..j] == s[i..i+j];
    forall k | i + j <= k < |s| ensures IsSpace(s[k]) {
      assert s[k] == s[i..][k - i];
    }
    if Trim(s) != "" {
      assert Trim(s)[0] == s[i..][0];
    }
  }

  lemma {:induction false} TrimmedLeft(s: string) returns (i: nat)
    ensures i <= |s| && TrimLeft(s) == s[i..] && forall k :: 0 <= k < i ==> IsSpace(s[k])
    ensures s[i..] != "" ==> !IsSpace(s[i])
  {
    if s != "" && IsSpace(s[0]) {
      i := TrimmedLeft(s[1..]);
      assert forall k :: 0 < k < i + 1 ==> s[k] == s[1..][k-1];
      i := i + 1;
    } else {
      i := 0;
    }
  }

  lemma {:induction false} TrimmedRight(s: string) returns (j: nat)
    ensures j <= |s| && TrimRight(s) == s[..j] && forall k :: j <= k < |s| ==> IsSpace(s[k])
    ensures j > 0 ==> !IsSpace(s[j-1])
  {
    if s != "" && IsSpace(s[|s|-1]) {
      j := TrimmedRight(s[..|s|-1]);
      assert forall k :: j <= k < |s| - 1 ==> s[k] == s[..|s|-1][k];
    } else {
      j := |s|;
    }
  }

  function CodeOf(): Entry -> string {
    (e: Entry) => e.code
  }

  function Received(): SentEntry -> Entry {
    (r: SentEntry) => Entry(Trim(r.code), Trim(r.name), r.inn, true)
  }

  function SentCode(): SentEntry -> string {
    (r: SentEntry) => Trim(r.code)
  }

  /** The codes sent, trimmed. */
  function Codes(incoming: seq<SentEntry>): set<string> {
    set r | r in incoming :: Trim(r.code)
  }

  function Dropped(seen: set<string>): Entry -> bool {
    (e: Entry) => e.isActive && e.code !in seen
  }

  /** What to add, update and switch off; a code sent twice refuses the whole set. */
  method PlanDirectorySync(existing: seq<Entry>, incoming: seq<SentEntry>) returns (p: Plan)
    ensures p.DuplicateCode? <==> !UniqueKeys(SentCode(), incoming)
    ensures p.Plan? ==> p.upsert == Map(Received(), incoming) && p.deactivate == Map(CodeOf(), Filter(Dropped(Codes(incoming)), existing))
  {
    var seen: set<string> := {};
    for i := 0 to |incoming|
      invariant seen == Codes(incoming[..i])
      invariant UniqueKeys(SentCode(), incoming[..i])
    {
      var code := Trim(incoming[i].code);
      assert incoming[..i+1] == incoming[..i] + [incoming[i]];
      if code in seen {
        var r :| r in incoming[..i] && Trim(r.code) == code;
        var j :| 0 <= j < i && incoming[j] == r;
        assert SentCode()(incoming[j]) == SentCode()(incoming[i]);
        return DuplicateCode(code);
      }
      NewCode(incoming, i);
      seen := seen + {code};
    }
    assert incoming[..|incoming|] == incoming;
    p := Plan(Map(Received(), incoming), Map(CodeOf(), Filter(Dropped(seen), existing)));
  }

  lemma NewCode(incoming: seq<SentEntry>, i: nat)
    requires i < |incoming| && UniqueKeys(SentCode(), incoming[..i]) && Trim(incoming[i].code) !in Codes(incoming[..i])
    ensures UniqueKeys(SentCode(), incoming[..i+1])
    ensures Codes(incoming[..i+1]) == Codes(incoming[..i]) + {Trim(incoming[i].code)}
  {
    assert incoming[..i+1] == incoming[..i] + [incoming[i]];
    forall j | 0 <= j < i ensures SentCode()(incoming[j]) != SentCode()(incoming[i]) {
      assert incoming[..i][j] in incoming[..i];
    }
  }

  /** The records with a code of the list are switched off. */
  function SwitchOff(codes: seq<string>): Entry -> Entry {
    (e: Entry) => if e.code in codes then e.(isActive := false) else e
  }

  /** The stored records after the sync: the sent ones written, the others switched off. */
  function SyncedEntries(existing: seq<Entry>, incoming: seq<SentEntry>): seq<Entry> {
    Map(SwitchOff(Map(CodeOf(), Filter(Dropped(Codes(incoming)), existing))), PutAll(CodeOf(), existing, Map(Received(), incoming)))
  }

  class PartnerDirectory {
    var entries: seq<Entry>

    constructor ()
      ensures entries == []
    {
      entries := [];
    }

    method Sync(incoming: seq<SentEntry>) returns (p: Plan)
      modifies this
      ensures p.DuplicateCode? <==> !UniqueKeys(SentCode(), incoming)
      ensures p.DuplicateCode? ==> entries == old(entries)
      ensures p.Plan? ==> entries == SyncedEntries(old(entries), incoming)
    {
      p := PlanDirectorySync(entries, incoming);
      if p.DuplicateCode? {
        return;
      }
      ghost var was := entries;
      for i := 0 to |p.upsert|
        invariant entries == PutAll(CodeOf(), was, p.upsert[..i])
      {
        assert p.upsert[..i+1][..i] == p.upsert[..i];
        entries := Put(CodeOf(), entries, p.upsert[i]);
      }
      assert p.upsert[..|p.upsert|] == p.upsert;
      entries := Map(SwitchOff(p.deactivate), entries);
    }
  }

  // ── What the sync leaves ─────────────────────────────────────────────────

  lemma {:induction false} FindMapped(f: Entry -> Entry, s: seq<Entry>, code: string)
    requires forall e :: f(e).code == e.code
    ensures Find(CodeOf(), Map(f, s), code) == match Find(CodeOf(), s, code)
                                               case None => None
                                               case Some(e) => Some(f(e))
  {
    if s != [] {
      assert Map(f, s)[0] == f(s[0]) && Map(f, s)[1..] == Map(f, s[1..]);
      FindMapped(f, s[1..], code);
    }
  }

  lemma SwitchedOffIff(existing: seq<Entry>, seen: set<string>, code: string)
    requires UniqueKeys(CodeOf(), existing)
    ensures code in Map(CodeOf(), Filter(Dropped(seen), existing))
            <==> Find(CodeOf(), existing, code).Some? && Find(CodeOf(), existing, code).value.isActive && code !in seen
  {
    var dropped := Filter(Dropped(seen), existing);
    FindMeaning(CodeOf(), existing, code);
    if code in Map(CodeOf(), dropped) {
      var i :| 0 <= i < |dropped| && Map(CodeOf(), dropped)[i] == code;
      assert dropped[i] in dropped;
    }
    if Find(CodeOf(), existing, code).Some? && Find(CodeOf(), existing, code).value.isActive && code !in seen {
      var e := Find(CodeOf(), existing, code).value;
      assert e in dropped;
      var i :| 0 <= i < |dropped| && dropped[i] == e;
      assert Map(CodeOf(), dropped)[i] == code;
    }
  }

  lemma SentCodes(incoming: seq<SentEntry>, code: string)
    ensures FindLast(CodeOf(), Map(Received(), incoming), code).Some? <==> code in Codes(incoming)
    ensures FindLast(CodeOf(), Map(Received(), incoming), code).Some? ==>
              exists r :: r in incoming && FindLast(CodeOf(), Map(Received(), incoming), code).value == Received()(r)
  {
    var rows := Map(Received(), incoming);
    FindLastMeaning(CodeOf(), rows, code);
    if code in Codes(incoming) {
      var r :| r in incoming && Trim(r.code) == code;
      var i :| 0 <= i < |incoming| && incoming[i] == r;
      assert rows[i] in rows;
    }
    if FindLast(CodeOf(), rows, code).Some? {
      var e := FindLast(CodeOf(), rows, code).value;
      var i :| 0 <= i < |rows| && rows[i] == e;
      assert incoming[i] in incoming;
    }
  }

  /**
   * Exactly the codes sent are active, each as it was sent; a code that was not sent keeps its record,
   * switched off; no record is lost and none appears that was not sent.
   */
  lemma SyncedMeaning(existing: seq<Entry>, incoming: seq<SentEntry>, code: string)
    requires UniqueKeys(CodeOf(), existing) && UniqueKeys(SentCode(), incoming)
    ensures UniqueKeys(CodeOf(), SyncedEntries(existing, incoming))
    ensures var found := Find(CodeOf(), SyncedEntries(existing, incoming), code);
            && (found.Some? && found.value.isActive <==> code in Codes(incoming))
            && (found.Some? <==> code in Codes(incoming) || Find(CodeOf(), existing, code).Some?)
            && (code in Codes(incoming) ==> exists r :: r in incoming && Trim(r.code) == code && found == Some(Entry(code, Trim(r.name), r.inn, true)))
            && (code !in Codes(incoming) && found.Some? ==>
                  found.value == Find(CodeOf(), existing, code).value.(isActive := false))
  {
    var rows, seen := Map(Received(), incoming), Codes(incoming);
    var written := PutAll(CodeOf(), existing, rows);
    var off := SwitchOff(Map(CodeOf(), Filter(Dropped(seen), existing)));
    PutAllMeaning(CodeOf(), existing, rows, code);
    SentCodes(incoming, code);
    FindLastMeaning(CodeOf(), rows, code);
    FindMeaning(CodeOf(), existing, code);
    SwitchedOffIff(existing, seen, code);
    FindMapped(off, written, code);
    forall i, j | 0 <= i < j < |written| ensures CodeOf()(Map(off, written)[i]) != CodeOf()(Map(off, written)[j]) {
      assert CodeOf()(written[i]) != CodeOf()(written[j]);
    }
  }

  /** Sending the same set again leaves every record as it is. */
  lemma ResyncKeeps(existing: seq<Entry>, incoming: seq<SentEntry>, code: string)
    requires UniqueKeys(CodeOf(), existing) && UniqueKeys(SentCode(), incoming)
    ensures var once := SyncedEntries(existing, incoming);
            Find(CodeOf(), SyncedEntries(once, incoming), code) == Find(CodeOf(), once, code)
  {
    var once := SyncedEntries(existing, incoming);
    SyncedMeaning(existing, incoming, code);
    SyncedMeaning(once, incoming, code);
    if code in Codes(incoming) {
      var x :| x in incoming && Trim(x.code) == code && Find(CodeOf(), once, code) == Some(Entry(code, Trim(x.name), x.inn, true));
      var y :| y in incoming && Trim(y.code) == code && Find(CodeOf(), SyncedEntries(once, incoming), code) == Some(Entry(code, Trim(y.name), y.inn, true));
      var i :| 0 <= i < |incoming| && incoming[i] == x;
      var j :| 0 <= j < |incoming| && incoming[j] == y;
      assert SentCode()(incoming[i]) == SentCode()(incoming[j]);
      assert i == j;
    }
  }
}
