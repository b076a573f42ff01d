/** `Array.prototype.sort` with a comparator, modelled as a stable insertion
    sort: an element moves in front of its left neighbour only while the
    comparator says the neighbour is greater (`cmp(neighbour, x) > 0`). For a
    comparator that is consistent (a total preorder) this is the unique stable
    sorted permutation that the ECMAScript specification requires, so it
    agrees with every conforming engine. */
module Sorting {
  import opened Seqs

  /** Places `x` into `s`, scanning from the right. */
  function Insert<T>(s: seq<T>, x: T, cmp: (T, T) -> int): (r: seq<T>)
    ensures |r| == |s| + 1
    ensures multiset(r) == multiset(s) + multiset{x}
    decreases |s|
  {
    if s == [] then [x]
    else if cmp(Last(s), x) > 0 then
      SplitLast(s);
      Insert(DropLast(s), x, cmp) + [Last(s)]
    else
      SplitLast(s);
      s + [x]
  }

  /** The sorted copy of `s`; a permutation of it for every comparator. */
  function SortBy<T>(s: seq<T>, cmp: (T, T) -> int): (r: seq<T>)
    ensures |r| == |s|
    ensures multiset(r) == multiset(s)
    decreases |s|
  {
    if s == [] then []
    else
      SplitLast(s);
      Insert(SortBy(DropLast(s), cmp), Last(s), cmp)
  }

  ghost predicate SortedBy<T>(s: seq<T>, cmp: (T, T) -> int) {
    forall i, j :: 0 <= i < j < |s| ==> cmp(s[i], s[j]) <= 0
  }

  ghost predicate SortedByKey<T>(s: seq<T>, key: T -> int) {
    forall i, j :: 0 <= i < j < |s| ==> key(s[i]) <= key(s[j])
  }

  /** `cmp`, read as "a is not after b" when `cmp(a, b) <= 0`, is total and
      transitive on the elements of `s`. */
  ghost predicate TotalPreorderOn<T(!new)>(s: seq<T>, cmp: (T, T) -> int) {
    && (forall a, b :: a in s && b in s ==> cmp(a, b) <= 0 || cmp(b, a) <= 0)
    && (forall a, b, c :: a in s && b in s && c in s && cmp(a, b) <= 0 && cmp(b, c) <= 0 ==> cmp(a, c) <= 0)
  }

  /** `cmp` is the difference of an integer key on the elements of `s`, as
      in `(a, b) => a.order - b.order`. */
  ghost predicate KeyedOn<T(!new)>(s: seq<T>, cmp: (T, T) -> int, key: T -> int) {
    forall a, b :: a in s && b in s ==> cmp(a, b) == key(a) - key(b)
  }

  lemma PreorderSubset<T(!new)>(s: seq<T>, t: seq<T>, cmp: (T, T) -> int)
    requires forall e :: e in s ==> e in t
    requires TotalPreorderOn(t, cmp)
    ensures TotalPreorderOn(s, cmp)
  {
  }

  /** Every element of an insertion comes from `p` or is `x`. */
  lemma InsertElements<T>(p: seq<T>, x: T, cmp: (T, T) -> int, i: int)
    requires 0 <= i <= |p|
    ensures Insert(p, x, cmp)[i] in p || Insert(p, x, cmp)[i] == x
  {
    var r := Insert(p, x, cmp);
    assert r[i] in multiset(r);
  }

  lemma {:induction false} InsertSorted<T(!new)>(p: seq<T>, x: T, cmp: (T, T) -> int)
    requires SortedBy(p, cmp)
    requires TotalPreorderOn(p + [x], cmp)
    ensures SortedBy(Insert(p, x, cmp), cmp)
    decreases |p|
  {
    if p != [] {
      var front, last := DropLast(p), Last(p);
      SplitLast(p);
      if cmp(last, x) > 0 {
        InsertSortedShift(p, x, cmp);
      } else {
        InsertSortedAppend(p, x, cmp);
      }
    }
  }

  lemma {:induction false} InsertSortedShift<T(!new)>(p: seq<T>, x: T, cmp: (T, T) -> int)
    requires p != [] && cmp(Last(p), x) > 0
    requires SortedBy(p, cmp)
    requires TotalPreorderOn(p + [x], cmp)
    ensures SortedBy(Insert(p, x, cmp), cmp)
    decreases |p|, 0
  {
    var front, last := DropLast(p), Last(p);
    SplitLast(p);
    assert forall e :: e in front + [x] ==> e in p + [x];
    PreorderSubset(front + [x], p + [x], cmp);
    assert SortedBy(front, cmp);
    InsertSorted(front, x, cmp);
    var ins := Insert(front, x, cmp);
    InsertBelowLast(p, x, cmp);
    AppendSorted(ins, last, cmp);
    assert Insert(p, x, cmp) == ins + [last];
  }

  lemma InsertBelowLast<T(!new)>(p: seq<T>, x: T, cmp: (T, T) -> int)
    requires p != [] && cmp(Last(p), x) > 0
    requires SortedBy(p, cmp)
    requires TotalPreorderOn(p + [x], cmp)
    ensures forall i :: 0 <= i < |p| ==> cmp(Insert(DropLast(p), x, cmp)[i], Last(p)) <= 0
  {
    var front, last := DropLast(p), Last(p);
    var ins := Insert(front, x, cmp);
    assert last in p + [x] && x in p + [x];
    assert cmp(x, last) <= 0;
    forall i | 0 <= i < |ins| ensures cmp(ins[i], last) <= 0 {
      InsertElements(front, x, cmp, i);
      if ins[i] in front {
        var k :| 0 <= k < |front| && front[k] == ins[i];
        assert p[k] == ins[i] && p[|p| - 1] == last;
      }
    }
  }

  lemma AppendSorted<T>(s: seq<T>, x: T, cmp: (T, T) -> int)
    requires SortedBy(s, cmp)
    requires forall i :: 0 <= i < |s| ==> cmp(s[i], x) <= 0
    ensures SortedBy(s + [x], cmp)
  {
    var r := s + [x];
    forall i, j | 0 <= i < j < |r| ensures cmp(r[i], r[j]) <= 0 {
      assert r[i] == s[i];
      if j < |s| {
        assert r[j] == s[j];
      }
    }
  }

  lemma InsertSortedAppend<T(!new)>(p: seq<T>, x: T, cmp: (T, T) -> int)
    requires p != [] && cmp(Last(p), x) <= 0
    requires SortedBy(p, cmp)
    requires TotalPreorderOn(p + [x], cmp)
    ensures SortedBy(Insert(p, x, cmp), cmp)
  {
    var last := Last(p);
    forall i | 0 <= i < |p| ensures cmp(p[i], x) <= 0 {
      if i < |p| - 1 {
        assert cmp(p[i], last) <= 0;
        assert p[i] in p + [x] && last in p + [x] && x in p + [x];
      }
    }
    assert Insert(p, x, cmp) == p + [x];
  }

  /** Sorting with a total preorder yields a sorted list. */
  lemma {:induction false} SortBySorted<T(!new)>(s: seq<T>, cmp: (T, T) -> int)
    requires TotalPreorderOn(s, cmp)
    ensures SortedBy(SortBy(s, cmp), cmp)
    decreases |s|
  {
    if s != [] {
      SplitLast(s);
      assert forall e :: e in DropLast(s) ==> e in s;
      SortBySorted(DropLast(s), cmp);
      var sorted := SortBy(DropLast(s), cmp);
      forall e | e in sorted + [Last(s)] ensures e in s {
        if e in sorted { assert e in multiset(sorted); }
      }
      InsertSorted(sorted, Last(s), cmp);
    }
  }

  /** Sorting by a key difference yields a list ascending by that key. */
  lemma {:induction false} SortByKeySorted<T(!new)>(s: seq<T>, cmp: (T, T) -> int, key: T -> int)
    requires KeyedOn(s, cmp, key)
    ensures SortedByKey(SortBy(s, cmp), key)
  {
    SortBySorted(s, cmp);
    var r := SortBy(s, cmp);
    forall i, j | 0 <= i < j < |r| ensures key(r[i]) <= key(r[j]) {
      assert r[i] in multiset(r) && r[j] in multiset(r);
    }
  }

  lemma {:induction false} FilterInsert<T(!new)>(p: seq<T>, x: T, cmp: (T, T) -> int, key: T -> int, keep: T -> bool)
    requires KeyedOn(p + [x], cmp, key)
    requires SortedByKey(p, key)
    ensures Filter(Insert(p, x, cmp), keep)
         == if keep(x) then Insert(Filter(p, keep), x, cmp) else Filter(p, keep)
    decreases |p|
  {
    if p == [] {
      assert DropLast([x]) == [];
    } else {
      var front, last := DropLast(p), Last(p);
      SplitLast(p);
      assert last in p + [x] && x in p + [x];
      if cmp(last, x) > 0 {
        assert forall e :: e in front + [x] ==> e in p + [x];
        FilterInsert(front, x, cmp, key, keep);
        var ins := Insert(front, x, cmp);
        assert DropLast(ins + [last]) == ins && Last(ins + [last]) == last;
        if keep(x) && keep(last) {
          var f := Filter(front, keep) + [last];
          assert DropLast(f) == Filter(front, keep) && Last(f) == last;
        }
      } else {
        assert DropLast(p + [x]) == p && Last(p + [x]) == x;
        var f := Filter(p, keep);
        if keep(x) && f != [] {
          var m := Last(f);
          assert m in f;
          var k :| 0 <= k < |p| && p[k] == m;
          assert key(p[k]) <= key(p[|p| - 1]);
          assert m in p + [x];
        }
      }
    }
  }

  /** A stable sort commutes with filtering: dropping elements before or
      after sorting gives the same list. */
  lemma {:induction false} SortFilterCommute<T(!new)>(s: seq<T>, cmp: (T, T) -> int, key: T -> int, keep: T -> bool)
    requires KeyedOn(s, cmp, key)
    ensures SortBy(Filter(s, keep), cmp) == Filter(SortBy(s, cmp), keep)
    decreases |s|
  {
    if s != [] {
      var front, last := DropLast(s), Last(s);
      SplitLast(s);
      assert forall e :: e in front ==> e in s;
      SortFilterCommute(front, cmp, key, keep);
      var sorted := SortBy(front, cmp);
      SortByKeySorted(front, cmp, key);
      forall e | e in sorted + [last] ensures e in s {
        if e in sorted { assert e in multiset(sorted); }
      }
      FilterInsert(sorted, last, cmp, key, keep);
      if keep(last) {
        var f := Filter(front, keep) + [last];
        assert DropLast(f) == Filter(front, keep) && Last(f) == last;
      }
    }
  }

  /** A list already ascending by the key is left as it is. */
  lemma {:induction false} SortByIdentity<T(!new)>(s: seq<T>, cmp: (T, T) -> int, key: T -> int)
    requires KeyedOn(s, cmp, key)
    requires SortedByKey(s, key)
    ensures SortBy(s, cmp) == s
    decreases |s|
  {
    if s != [] {
      var front := DropLast(s);
      SplitLast(s);
      KeyedFront(s, cmp, key);
      SortByIdentity(front, cmp, key);
      if front != [] {
        assert Last(front) == s[|s| - 2];
        assert Last(front) in s && Last(s) in s;
      }
    }
  }

  /** Dropping the last element keeps a list keyed and ascending. */
  lemma KeyedFront<T(!new)>(s: seq<T>, cmp: (T, T) -> int, key: T -> int)
    requires s != []
    requires KeyedOn(s, cmp, key)
    requires SortedByKey(s, key)
    ensures KeyedOn(DropLast(s), cmp, key)
    ensures SortedByKey(DropLast(s), key)
  {
    assert forall e :: e in DropLast(s) ==> e in s;
  }

  /** Stability: elements that share one key value keep their relative
      order. `keep` selects any set of elements whose keys are all equal. */
  lemma {:induction false} SortByStable<T(!new)>(s: seq<T>, cmp: (T, T) -> int, key: T -> int, keep: T -> bool)
    requires KeyedOn(s, cmp, key)
    requires forall a, b :: a in s && b in s && keep(a) && keep(b) ==> key(a) == key(b)
    ensures Filter(SortBy(s, cmp), keep) == Filter(s, keep)
  {
    SortFilterCommute(s, cmp, key, keep);
    var f := Filter(s, keep);
    assert KeyedOn(f, cmp, key);
    SortByIdentity(f, cmp, key);
  }

  /** Where the in-place insertion loop stops, `Insert` puts `x`. */
  lemma {:induction false} InsertAt<T>(p: seq<T>, x: T, j: nat, cmp: (T, T) -> int)
    requires j <= |p|
    requires j == 0 || cmp(p[j - 1], x) <= 0
    requires forall k :: j <= k < |p| ==> cmp(p[k], x) > 0
    ensures Insert(p, x, cmp) == p[..j] + [x] + p[j..]
    decreases |p|
  {
    if j == |p| {
      assert p[..j] == p && p[j..] == [];
      if p != [] {
        assert Last(p) == p[j - 1];
      }
    } else {
      var front, last := DropLast(p), Last(p);
      assert cmp(last, x) > 0 by { assert last == p[|p| - 1]; }
      assert Insert(p, x, cmp) == Insert(front, x, cmp) + [last];
      InsertAt(front, x, j, cmp);
      SpliceLast(p, x, j);
    }
  }

  lemma SpliceLast<T>(p: seq<T>, x: T, j: nat)
    requires j < |p|
    ensures DropLast(p)[..j] + [x] + DropLast(p)[j..] + [Last(p)] == p[..j] + [x] + p[j..]
  {
    var a, b := DropLast(p)[..j], DropLast(p)[j..];
    assert a == p[..j];
    assert b + [Last(p)] == p[j..];
    assert a + [x] + b + [Last(p)] == a + [x] + (b + [Last(p)]);
  }

  /** `a.sort(cmp)` in place: the array ends up holding `SortBy` of what it
      held, by inserting each element into the sorted prefix before it. */
  method SortInPlace<T>(a: array<T>, cmp: (T, T) -> int)
    modifies a
    ensures a[..] == SortBy(old(a[..]), cmp)
  {
    ghost var s := a[..];
    var i := 0;
    while i < a.Length
      invariant 0 <= i <= a.Length && |s| == a.Length
      invariant a[..i] == SortBy(s[..i], cmp)
      invariant forall k :: i <= k < a.Length ==> a[k] == s[k]
    {
      SortByStep(s, i, cmp);
      InsertStep(a, i, cmp);
      i := i + 1;
    }
    assert a[..] == a[..a.Length] && s == s[..a.Length];
  }

  lemma SortByStep<T>(s: seq<T>, i: nat, cmp: (T, T) -> int)
    requires i < |s|
    ensures SortBy(s[..i + 1], cmp) == Insert(SortBy(s[..i], cmp), s[i], cmp)
  {
    assert DropLast(s[..i + 1]) == s[..i] && Last(s[..i + 1]) == s[i];
  }

  /** One insertion pass: the element at `i` moves left past every greater
      element of the prefix `a[..i]`. */
  method InsertStep<T>(a: array<T>, i: nat, cmp: (T, T) -> int)
    requires i < a.Length
    modifies a
    ensures a[..i + 1] == Insert(old(a[..i]), old(a[i]), cmp)
    ensures forall k :: i < k < a.Length ==> a[k] == old(a[k])
  {
    ghost var p := a[..i];
    var x := a[i];
    var j := ShiftGreater(a, i, x, cmp);
    a[j] := x;
    InsertAt(p, x, j, cmp);
    Spliced(a[..], p, x, i, j);
  }

  /** Moves the elements of `a[..i]` that are greater than `x` one place to
      the right and returns the gap they leave. */
  method ShiftGreater<T>(a: array<T>, i: nat, x: T, cmp: (T, T) -> int) returns (j: nat)
    requires i < a.Length
    modifies a
    ensures j <= i
    ensures forall k :: 0 <= k < j ==> a[k] == old(a[k])
    ensures forall k :: j < k <= i ==> a[k] == old(a[k - 1])
    ensures forall k :: i < k < a.Length ==> a[k] == old(a[k])
    ensures forall k :: j <= k < i ==> cmp(old(a[k]), x) > 0
    ensures j == 0 || cmp(old(a[j - 1]), x) <= 0
  {
    j := i;
    while j > 0 && cmp(a[j - 1], x) > 0
      invariant 0 <= j <= i
      invariant forall k :: 0 <= k < j ==> a[k] == old(a[k])
      invariant forall k :: j < k <= i ==> a[k] == old(a[k - 1])
      invariant forall k :: i < k < a.Length ==> a[k] == old(a[k])
      invariant forall k :: j <= k < i ==> cmp(old(a[k]), x) > 0
    {
      a[j] := a[j - 1];
      j := j - 1;
    }
  }

  lemma Spliced<T>(r: seq<T>, p: seq<T>, x: T, i: nat, j: nat)
    requires j <= i == |p| < |r|
    requires forall k :: 0 <= k < j ==> r[k] == p[k]
    requires r[j] == x
    requires forall k :: j < k <= i ==> r[k] == p[k - 1]
    ensures r[..i + 1] == p[..j] + [x] + p[j..]
  {
  }

  /** A filter of a list sorted by a key is sorted by that key. */
  lemma {:induction false} FilterSortedByKey<T(!new)>(s: seq<T>, key: T -> int, p: T -> bool)
    requires SortedByKey(s, key)
    ensures SortedByKey(Filter(s, p), key)
    decreases |s|
  {
    if s != [] {
      var d := DropLast(s);
      assert SortedByKey(d, key);
      FilterSortedByKey(d, key, p);
      var front := Filter(d, p);
      if p(Last(s)) {
        var r := front + [Last(s)];
        forall i, j | 0 <= i < j < |r| ensures key(r[i]) <= key(r[j]) {
          if j == |r| - 1 {
            assert r[i] in d;
            var k :| 0 <= k < |d| && d[k] == r[i];
            assert key(s[k]) <= key(s[|s| - 1]);
          } else {
            assert r[i] == front[i] && r[j] == front[j];
          }
        }
      }
    }
  }
}
