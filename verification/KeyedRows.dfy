/** Rows kept under a key: upserting, deleting and looking one up. */
module KeyedRows {
  import opened Options
  import opened Sequences

  /** The first row with the key. */
  function Find<T, K(==)>(key: T -> K, s: seq<T>, k: K): Option<T> {
    if s == [] then None else if key(s[0]) == k then Some(s[0]) else Find(key, s[1..], k)
  }

  /** The last row with the key. */
  function FindLast<T, K(==)>(key: T -> K, s: seq<T>, k: K): Option<T> {
    if s == [] then None else if key(s[|s|-1]) == k then Some(s[|s|-1]) else FindLast(key, s[..|s|-1], k)
  }

  /** Overwrites the row with the same key, or adds the row. */
  function Put<T, K(==)>(key: T -> K, s: seq<T>, x: T): seq<T> {
    if s == [] then [x] else if key(s[0]) == key(x) then [x] + s[1..] else [s[0]] + Put(key, s[1..], x)
  }

  function PutAll<T, K(==)>(key: T -> K, s: seq<T>, xs: seq<T>): seq<T> {
    if xs == [] then s else Put(key, PutAll(key, s, xs[..|xs|-1]), xs[|xs|-1])
  }

  ghost predicate UniqueKeys<T, K>(key: T -> K, s: seq<T>) {
    forall i, j :: 0 <= i < j < |s| ==> key(s[i]) != key(s[j])
  }

  function OtherKey<T, K(==)>(key: T -> K, k: K): T -> bool {
    (x: T) => key(x) != k
  }

  lemma {:induction false} FindMeaning<T(!new), K>(key: T -> K, s: seq<T>, k: K)
    ensures Find(key, s, k).None? <==> forall x :: x in s ==> key(x) != k
    ensures Find(key, s, k).Some? ==> Find(key, s, k).value in s && key(Find(key, s, k).value) == k
    ensures UniqueKeys(key, s) ==> forall x :: x in s && key(x) == k ==> Find(key, s, k) == Some(x)
  {
    if s != [] {
      FindMeaning(key, s[1..], k);
    }
  }

  lemma {:induction false} FindLastMeaning<T(!new), K>(key: T -> K, s: seq<T>, k: K)
    ensures FindLast(key, s, k).None? <==> forall x :: x in s ==> key(x) != k
    ensures FindLast(key, s, k).Some? ==> FindLast(key, s, k).value in s && key(FindLast(key, s, k).value) == k
  {
    if s != [] {
      FindLastMeaning(key, s[..|s|-1], k);
    }
  }

  /** The last row with the key is the one no later row shares the key with. */
  lemma {:induction false} FindLastIs<T, K>(key: T -> K, s: seq<T>, i: nat)
    requires i < |s| && forall j :: i < j < |s| ==> key(s[j]) != key(s[i])
    ensures FindLast(key, s, key(s[i])) == Some(s[i])
  {
    if i < |s| - 1 {
      FindLastIs(key, s[..|s|-1], i);
    }
  }

  /** After an upsert the key holds the new row; every other key holds what it held. */
  lemma {:induction false} PutMeaning<T, K>(key: T -> K, s: seq<T>, x: T, k: K)
    ensures Find(key, Put(key, s, x), k) == if key(x) == k then Some(x) else Find(key, s, k)
  {
    if s != [] && key(s[0]) != key(x) {
      PutMeaning(key, s[1..], x, k);
    }
  }

  lemma {:induction false} PutUnique<T(!new), K>(key: T -> K, s: seq<T>, x: T)
    requires UniqueKeys(key, s)
    ensures UniqueKeys(key, Put(key, s, x))
    ensures forall y :: y in Put(key, s, x) ==> y == x || y in s
  {
    if s != [] && key(s[0]) != key(x) {
      PutUnique(key, s[1..], x);
      var r := Put(key, s[1..], x);
      forall j | 0 <= j < |r| ensures key(s[0]) != key(r[j]) {
        assert r[j] in r;
      }
    }
  }

  /** After an upsert the rows are the new one and those with other keys. */
  lemma {:induction false} PutMembers<T(!new), K>(key: T -> K, s: seq<T>, x: T, y: T)
    requires UniqueKeys(key, s)
    ensures y in Put(key, s, x) <==> y == x || (y in s && key(y) != key(x))
  {
    if s != [] && key(s[0]) != key(x) {
      PutMembers(key, s[1..], x, y);
    } else if s != [] {
      assert forall i :: 0 < i < |s| ==> key(s[i]) != key(s[0]);
    }
  }

  /** An upsert leaves alone every list its key is not part of. */
  lemma {:induction false} PutOutside<T(!new), K>(key: T -> K, keep: T -> bool, s: seq<T>, x: T)
    requires !keep(x) && forall y :: y in s && key(y) == key(x) ==> !keep(y)
    ensures Filter(keep, Put(key, s, x)) == Filter(keep, s)
  {
    if s != [] && key(s[0]) != key(x) {
      PutOutside(key, keep, s[1..], x);
      FilterConcat(keep, [s[0]], Put(key, s[1..], x));
    } else if s != [] {
      FilterConcat(keep, [x], s[1..]);
    }
  }

  /** After a batch every key holds the last row sent for it, or what it held. */
  lemma {:induction false} PutAllMeaning<T(!new), K>(key: T -> K, s: seq<T>, xs: seq<T>, k: K)
    ensures Find(key, PutAll(key, s, xs), k) == OrElse(FindLast(key, xs, k), Find(key, s, k))
    ensures UniqueKeys(key, s) ==> UniqueKeys(key, PutAll(key, s, xs))
  {
    if xs != [] {
      PutAllMeaning(key, s, xs[..|xs|-1], k);
      PutMeaning(key, PutAll(key, s, xs[..|xs|-1]), xs[|xs|-1], k);
      if UniqueKeys(key, s) {
        PutUnique(key, PutAll(key, s, xs[..|xs|-1]), xs[|xs|-1]);
      }
    }
  }

  lemma {:induction false} PutAllOutside<T(!new), K>(key: T -> K, keep: T -> bool, s: seq<T>, xs: seq<T>)
    requires forall x, y :: x in xs && key(y) == key(x) ==> !keep(y)
    ensures Filter(keep, PutAll(key, s, xs)) == Filter(keep, s)
  {
    if xs != [] {
      PutAllOutside(key, keep, s, xs[..|xs|-1]);
      assert xs[|xs|-1] in xs;
      PutOutside(key, keep, PutAll(key, s, xs[..|xs|-1]), xs[|xs|-1]);
    }
  }

  lemma {:induction false} FilterUnique<T(!new), K>(key: T -> K, keep: T -> bool, s: seq<T>)
    requires UniqueKeys(key, s)
    ensures UniqueKeys(key, Filter(keep, s))
  {
    if s != [] {
      FilterUnique(key, keep, s[1..]);
      var r := Filter(keep, s[1..]);
      forall j | 0 <= j < |r| ensures key(s[0]) != key(r[j]) {
        assert r[j] in r;
      }
    }
  }

  lemma {:induction false} WithoutMeaning<T(!new), K>(key: T -> K, s: seq<T>, gone: K, k: K)
    ensures Find(key, Filter(OtherKey(key, gone), s), k) == if k == gone then None else Find(key, s, k)
  {
    if s != [] {
      WithoutMeaning(key, s[1..], gone, k);
    }
  }

  lemma {:induction false} PutAbsent<T(!new), K>(key: T -> K, s: seq<T>, x: T)
    requires forall y :: y in s ==> key(y) != key(x)
    ensures Put(key, s, x) == s + [x]
  {
    if s != [] {
      PutAbsent(key, s[1..], x);
    }
  }

  /** Writing back the row that is there changes nothing. */
  lemma {:induction false} PutSame<T(!new), K>(key: T -> K, s: seq<T>, x: T)
    requires Find(key, s, key(x)) == Some(x)
    ensures Put(key, s, x) == s
  {
    if key(s[0]) != key(x) {
      PutSame(key, s[1..], x);
    }
  }

  /** Two lists of the same keys, row by row, are upserted alike. */
  lemma {:induction false} MapPut<T, U, K>(f: T -> U, keyT: T -> K, keyU: U -> K, s: seq<T>, x: T)
    requires keyU(f(x)) == keyT(x) && forall y :: y in s ==> keyU(f(y)) == keyT(y)
    ensures Map(f, Put(keyT, s, x)) == Put(keyU, Map(f, s), f(x))
  {
    if s != [] {
      assert s[0] in s && Map(f, s)[0] == f(s[0]) && Map(f, s)[1..] == Map(f, s[1..]);
      if keyT(s[0]) != keyT(x) {
        MapPut(f, keyT, keyU, s[1..], x);
        MapConcat(f, [s[0]], Put(keyT, s[1..], x));
      } else {
        MapConcat(f, [x], s[1..]);
      }
    } else {
      assert Map(f, [x]) == [f(x)];
    }
  }

  /** Keys repeated only by dropped rows are unique among the rest. */
  lemma {:induction false} FilterDropsRepeats<T(!new), K>(key: T -> K, keep: T -> bool, s: seq<T>)
    requires forall i, j :: 0 <= i < j < |s| && key(s[i]) == key(s[j]) ==> !keep(s[i])
    ensures UniqueKeys(key, Filter(keep, s))
  {
    if s != [] {
      FilterDropsRepeats(key, keep, s[1..]);
      var r := Filter(keep, s[1..]);
      forall j | 0 <= j < |r| && keep(s[0]) ensures key(s[0]) != key(r[j]) {
        assert r[j] in r && r[j] in s[1..];
        var i :| 0 <= i < |s[1..]| && s[1..][i] == r[j];
        assert s[i+1] == r[j];
      }
    }
  }

  /** Of two upserts under one key the second stands. */
  lemma {:induction false} PutAgain<T, K>(key: T -> K, s: seq<T>, first: T, second: T)
    requires key(first) == key(second)
    ensures Put(key, Put(key, s, first), second) == Put(key, s, second)
  {
    if s != [] && key(s[0]) != key(first) {
      PutAgain(key, s[1..], first, second);
    }
  }
}
