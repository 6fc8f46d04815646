/** Filtering and stable sorting of row lists: `Array.filter` and `Array.sort`. */
module Sequences {

  /** The rows of `s` that satisfy `keep`, in order. */
  function Filter<T(!new)>(keep: T -> bool, s: seq<T>): (r: seq<T>)
    ensures forall x :: x in r <==> x in s && keep(x)
  {
    if s == [] then []
    else if keep(s[0]) then [s[0]] + Filter(keep, s[1..])
    else Filter(keep, s[1..])
  }

  function Map<T, U>(f: T -> U, s: seq<T>): (r: seq<U>)
    ensures |r| == |s| && forall i :: 0 <= i < |s| ==> r[i] == f(s[i])
  {
    seq(|s|, i requires 0 <= i < |s| => f(s[i]))
  }

  lemma {:induction false} FilterConcat<T(!new)>(keep: T -> bool, a: seq<T>, b: seq<T>)
    ensures Filter(keep, a + b) == Filter(keep, a) + Filter(keep, b)
  {
    if a == [] {
      assert a + b == b;
    } else {
      assert (a + b)[0] == a[0] && (a + b)[1..] == a[1..] + b;
      FilterConcat(keep, a[1..], b);
    }
  }

  lemma FilterNext<T(!new)>(keep: T -> bool, s: seq<T>, i: nat)
    requires i < |s|
    ensures Filter(keep, s[..i+1]) == Filter(keep, s[..i]) + if keep(s[i]) then [s[i]] else []
  {
    assert s[..i+1] == s[..i] + [s[i]];
    FilterConcat(keep, s[..i], [s[i]]);
  }

  /** Two filters that agree on every row of the list keep the same rows. */
  lemma {:induction false} FilterAgree<T(!new)>(p: T -> bool, q: T -> bool, s: seq<T>)
    requires forall x :: x in s ==> p(x) == q(x)
    ensures Filter(p, s) == Filter(q, s)
  {
    if s != [] {
      FilterAgree(p, q, s[1..]);
    }
  }

  /** Filtering by `p` and then by a stronger `q` is filtering by `q`. */
  lemma {:induction false} FilterFilter<T(!new)>(p: T -> bool, q: T -> bool, s: seq<T>)
    requires forall x :: x in s && q(x) ==> p(x)
    ensures Filter(q, Filter(p, s)) == Filter(q, s)
  {
    if s != [] {
      FilterFilter(p, q, s[1..]);
      if p(s[0]) {
        assert Filter(p, s)[1..] == Filter(p, s[1..]);
      }
    }
  }

  lemma {:induction false} FilterAll<T(!new)>(keep: T -> bool, s: seq<T>)
    ensures (forall x :: x in s ==> keep(x)) ==> Filter(keep, s) == s
    ensures (forall x :: x in s ==> !keep(x)) ==> Filter(keep, s) == []
  {
    if s != [] {
      FilterAll(keep, s[1..]);
    }
  }

  lemma FilterNotLonger<T(!new)>(keep: T -> bool, s: seq<T>)
    ensures |Filter(keep, s)| <= |s|
  {
    if s != [] {
      FilterShrinks(keep, s, s[0]);
    }
  }

  lemma {:induction false} FilterShrinks<T(!new)>(keep: T -> bool, s: seq<T>, gone: T)
    ensures |Filter(keep, s)| <= |s|
    ensures gone in s && !keep(gone) ==> |Filter(keep, s)| < |s|
  {
    if s != [] {
      FilterShrinks(keep, s[1..], gone);
    }
  }

  lemma {:induction false} FilterSwap<T(!new)>(p: T -> bool, q: T -> bool, s: seq<T>)
    ensures Filter(p, Filter(q, s)) == Filter(q, Filter(p, s))
  {
    if s != [] {
      FilterSwap(p, q, s[1..]);
      FilterConcat(p, [s[0]], Filter(q, s[1..]));
      FilterConcat(q, [s[0]], Filter(p, s[1..]));
    }
  }

  lemma {:induction false} FilterMultiset<T(!new)>(keep: T -> bool, a: seq<T>, b: seq<T>)
    requires multiset(a) == multiset(b)
    ensures multiset(Filter(keep, a)) == multiset(Filter(keep, b))
  {
    forall x ensures multiset(Filter(keep, a))[x] == multiset(Filter(keep, b))[x] {
      FilterCount(keep, a, x);
      FilterCount(keep, b, x);
    }
  }

  lemma {:induction false} FilterCount<T(!new)>(keep: T -> bool, s: seq<T>, x: T)
    ensures multiset(Filter(keep, s))[x] == if keep(x) then multiset(s)[x] else 0
  {
    if s != [] {
      assert s == [s[0]] + s[1..];
      FilterCount(keep, s[1..], x);
    }
  }

  lemma MapConcat<T, U>(f: T -> U, a: seq<T>, b: seq<T>)
    ensures Map(f, a + b) == Map(f, a) + Map(f, b)
  {
  }

  /** Taking one row out of the list takes its image out of the images. */
  lemma MapWithout<T, U>(f: T -> U, before: seq<T>, x: T, after: seq<T>)
    ensures multiset(Map(f, before + [x] + after)) == multiset{f(x)} + multiset(Map(f, before + after))
  {
    MapConcat(f, before + [x], after);
    MapConcat(f, before, [x]);
    MapConcat(f, before, after);
    assert Map(f, [x]) == [f(x)];
  }

  lemma MultisetWithout<T>(a: seq<T>, before: seq<T>, after: seq<T>)
    requires a != [] && multiset(a) == multiset(before + [a[0]] + after)
    ensures multiset(a[1..]) == multiset(before + after)
  {
    assert a == [a[0]] + a[1..];
    assert multiset(a[1..]) == multiset(a) - multiset{a[0]};
    assert multiset(before + [a[0]] + after) == multiset(before) + multiset{a[0]} + multiset(after);
    assert multiset(before + after) == multiset(before) + multiset(after);
  }

  lemma {:induction false} MapMultiset<T(!new), U>(f: T -> U, a: seq<T>, b: seq<T>)
    requires multiset(a) == multiset(b)
    ensures multiset(Map(f, a)) == multiset(Map(f, b))
  {
    assert |a| == |multiset(a)| == |b|;
    if a != [] {
      assert a[0] in multiset(b);
      var i :| 0 <= i < |b| && b[i] == a[0];
      var before, after := b[..i], b[i+1..];
      assert b == before + [a[0]] + after;
      MultisetWithout(a, before, after);
      MapMultiset(f, a[1..], before + after);
      MapWithout(f, before, a[0], after);
      assert a == [] + [a[0]] + a[1..] && a[1..] == [] + a[1..];
      MapWithout(f, [], a[0], a[1..]);
    } else {
      assert b == [];
    }
  }

  ghost predicate NoRepeats<T(!new)>(s: seq<T>) {
    forall i, j :: 0 <= i < j < |s| ==> s[i] != s[j]
  }

  /** The members of the tail are in the other list outside one place where it has the head. */
  lemma TailElsewhere<T(!new)>(a: seq<T>, b: seq<T>) returns (before: seq<T>, after: seq<T>)
    requires a != [] && NoRepeats(a) && forall x :: x in a ==> x in b
    ensures b == before + [a[0]] + after
    ensures forall x :: x in a[1..] ==> x in before + after
  {
    assert a[0] in b;
    var i :| 0 <= i < |b| && b[i] == a[0];
    before, after := b[..i], b[i+1..];
    forall x | x in a[1..] ensures x in before + after {
      var m :| 0 <= m < |a[1..]| && a[1..][m] == x;
      assert a[m + 1] == x && x in a;
      assert x in b && x != a[0];
    }
  }

  lemma StillNoRepeats<T(!new)>(before: seq<T>, x: T, after: seq<T>)
    requires NoRepeats(before + [x] + after)
    ensures NoRepeats(before + after)
  {
    var whole, rest := before + [x] + after, before + after;
    forall i, j | 0 <= i < j < |rest| ensures rest[i] != rest[j] {
      assert rest[i] == whole[if i < |before| then i else i + 1];
      assert rest[j] == whole[if j < |before| then j else j + 1];
    }
  }

  /** Lists without repetitions, of one length and with the same members, are permutations of each other. */
  lemma {:induction false} SameMembersPermute<T(!new)>(a: seq<T>, b: seq<T>)
    requires NoRepeats(a) && NoRepeats(b) && |a| == |b|
    requires forall x :: x in a ==> x in b
    ensures multiset(a) == multiset(b)
  {
    if a != [] {
      var before, after := TailElsewhere(a, b);
      StillNoRepeats(before, a[0], after);
      SameMembersPermute(a[1..], before + after);
      assert a == [a[0]] + a[1..];
    }
  }

  /** A list without repetitions is no longer than one that has all its members. */
  lemma {:induction false} FewerMembers<T(!new)>(a: seq<T>, b: seq<T>)
    requires NoRepeats(a) && forall x :: x in a ==> x in b
    ensures |a| <= |b|
  {
    if a != [] {
      var before, after := TailElsewhere(a, b);
      FewerMembers(a[1..], before + after);
    }
  }

  // ── Stable sort ──────────────────────────────────────────────────────────

  /** `le` orders every pair, possibly with ties. */
  ghost predicate TotalPreorder<T(!new)>(le: (T, T) -> bool) {
    && (forall x, y :: le(x, y) || le(y, x))
    && (forall x, y, z :: le(x, y) && le(y, z) ==> le(x, z))
  }

  ghost predicate Sorted<T>(le: (T, T) -> bool, s: seq<T>) {
    forall i, j :: 0 <= i < j < |s| ==> le(s[i], s[j])
  }

  function Insert<T>(le: (T, T) -> bool, x: T, s: seq<T>): seq<T> {
    if s == [] then [x]
    else if le(x, s[0]) then [x] + s
    else [s[0]] + Insert(le, x, s[1..])
  }

  /** A stable sort: rows that tie keep their order. */
  function Sort<T>(le: (T, T) -> bool, s: seq<T>): seq<T> {
    if s == [] then [] else Insert(le, s[0], Sort(le, s[1..]))
  }

  lemma {:induction false} InsertPermutes<T>(le: (T, T) -> bool, x: T, s: seq<T>)
    ensures multiset(Insert(le, x, s)) == multiset{x} + multiset(s)
  {
    if s != [] {
      assert s == [s[0]] + s[1..];
      if !le(x, s[0]) {
        InsertPermutes(le, x, s[1..]);
      }
    }
  }

  lemma {:induction false} InsertSorts<T(!new)>(le: (T, T) -> bool, x: T, s: seq<T>)
    requires TotalPreorder(le) && Sorted(le, s)
    ensures Sorted(le, Insert(le, x, s))
  {
    if s != [] && !le(x, s[0]) {
      InsertSorts(le, x, s[1..]);
      InsertPermutes(le, x, s[1..]);
      var r := Insert(le, x, s[1..]);
      forall j | 0 <= j < |r| ensures le(s[0], r[j]) {
        assert r[j] in multiset(r);
        assert r[j] == x || r[j] in s[1..];
      }
    }
  }

  lemma {:induction false} SortSorts<T(!new)>(le: (T, T) -> bool, s: seq<T>)
    requires TotalPreorder(le)
    ensures Sorted(le, Sort(le, s))
    ensures multiset(Sort(le, s)) == multiset(s)
  {
    if s != [] {
      SortSorts(le, s[1..]);
      InsertSorts(le, s[0], Sort(le, s[1..]));
      InsertPermutes(le, s[0], Sort(le, s[1..]));
      assert s == [s[0]] + s[1..];
    }
  }

  lemma SortMembers<T(!new)>(le: (T, T) -> bool, s: seq<T>)
    requires TotalPreorder(le)
    ensures forall x :: x in Sort(le, s) <==> x in s
    ensures |Sort(le, s)| == |s|
  {
    SortSorts(le, s);
    assert |multiset(Sort(le, s))| == |multiset(s)|;
    forall x ensures x in Sort(le, s) <==> x in s {
      assert x in Sort(le, s) <==> x in multiset(Sort(le, s));
      assert x in s <==> x in multiset(s);
    }
  }

  lemma {:induction false} SortLength<T>(le: (T, T) -> bool, s: seq<T>)
    ensures |Sort(le, s)| == |s|
  {
    if s != [] {
      SortLength(le, s[1..]);
      InsertLength(le, s[0], Sort(le, s[1..]));
    }
  }

  lemma {:induction false} InsertLength<T>(le: (T, T) -> bool, x: T, s: seq<T>)
    ensures |Insert(le, x, s)| == |s| + 1
  {
    if s != [] {
      InsertLength(le, x, s[1..]);
    }
  }

  /** Sorting commutes with filtering. */
  lemma {:induction false} FilterSort<T(!new)>(le: (T, T) -> bool, keep: T -> bool, s: seq<T>)
    requires TotalPreorder(le)
    ensures Filter(keep, Sort(le, s)) == Sort(le, Filter(keep, s))
  {
    if s != [] {
      FilterSort(le, keep, s[1..]);
      SortSorts(le, s[1..]);
      FilterInsert(le, keep, s[0], Sort(le, s[1..]));
    }
  }

  lemma {:induction false} FilterInsert<T(!new)>(le: (T, T) -> bool, keep: T -> bool, x: T, s: seq<T>)
    requires TotalPreorder(le) && Sorted(le, s)
    ensures Filter(keep, Insert(le, x, s)) ==
            if keep(x) then Insert(le, x, Filter(keep, s)) else Filter(keep, s)
  {
    if s == [] {
    } else if le(x, s[0]) {
      FilterConcat(keep, [x], s);
      var f := Filter(keep, s);
      if f != [] {
        assert f[0] in s;
        var i :| 0 <= i < |s| && s[i] == f[0];
        assert i == 0 || le(s[0], s[i]);
        assert le(x, f[0]);
      }
    } else {
      FilterInsert(le, keep, x, s[1..]);
      FilterConcat(keep, [s[0]], Insert(le, x, s[1..]));
    }
  }

  /** Rows that all tie are left as they are. */
  lemma {:induction false} SortTies<T>(le: (T, T) -> bool, s: seq<T>)
    requires forall x, y :: x in s && y in s ==> le(x, y)
    ensures Sort(le, s) == s
  {
    if s != [] {
      SortTies(le, s[1..]);
      if s[1..] != [] {
        assert s[1..][0] in s;
      }
    }
  }

  /** When no two different rows tie, the sorted list forgets the order it came in. */
  lemma SortCanonical<T(!new)>(le: (T, T) -> bool, a: seq<T>, b: seq<T>)
    requires TotalPreorder(le)
    requires multiset(a) == multiset(b)
    requires forall x, y :: x in a && y in a && le(x, y) && le(y, x) ==> x == y
    ensures Sort(le, a) == Sort(le, b)
  {
    SortSorts(le, a);
    SortSorts(le, b);
    SortMembers(le, a);
    SortedUnique(le, Sort(le, a), Sort(le, b));
  }

  /** The first of the least rows comes first. */
  lemma {:induction false} SortHead<T(!new)>(le: (T, T) -> bool, s: seq<T>, i: nat)
    requires i < |s| && TotalPreorder(le)
    requires (forall j :: 0 <= j < |s| ==> le(s[i], s[j])) && forall j :: 0 <= j < i ==> !le(s[j], s[i])
    ensures Sort(le, s) != [] && Sort(le, s)[0] == s[i]
  {
    if i > 0 {
      SortHead(le, s[1..], i - 1);
    } else {
      SortMembers(le, s[1..]);
      var rest := Sort(le, s[1..]);
      if rest != [] {
        assert rest[0] in s[1..];
      }
    }
  }

  lemma HeadIsLeast<T(!new)>(le: (T, T) -> bool, s: seq<T>, x: T)
    requires TotalPreorder(le) && Sorted(le, s) && x in s
    ensures le(s[0], x)
  {
    var i :| 0 <= i < |s| && s[i] == x;
    assert i == 0 || le(s[0], s[i]);
  }

  lemma {:induction false} SortedUnique<T(!new)>(le: (T, T) -> bool, a: seq<T>, b: seq<T>)
    requires TotalPreorder(le) && Sorted(le, a) && Sorted(le, b)
    requires multiset(a) == multiset(b)
    requires forall x, y :: x in a && y in a && le(x, y) && le(y, x) ==> x == y
    ensures a == b
  {
    assert |a| == |multiset(a)| == |b|;
    if a != [] {
      assert a[0] in multiset(b) && b[0] in multiset(a);
      HeadIsLeast(le, a, b[0]);
      HeadIsLeast(le, b, a[0]);
      assert a == [a[0]] + a[1..] && b == [b[0]] + b[1..];
      assert multiset(a[1..]) == multiset(a) - multiset{a[0]} == multiset(b[1..]);
      SortedUnique(le, a[1..], b[1..]);
    }
  }
}
