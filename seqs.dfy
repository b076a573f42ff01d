/** Sequence helpers shared by the list handlers: `Array.prototype.filter`
    and the notion of "same elements, same relative order". */
module Seqs {

  function Last<T>(s: seq<T>): T
    requires |s| > 0
  {
    s[|s| - 1]
  }

  function DropLast<T>(s: seq<T>): seq<T>
    requires |s| > 0
  {
    s[..|s| - 1]
  }

  lemma AppendAssoc<T>(a: seq<T>, b: seq<T>, c: seq<T>)
    ensures a + (b + c) == a + b + c
  {
  }

  lemma SplitLast<T>(s: seq<T>)
    requires |s| > 0
    ensures s == DropLast(s) + [Last(s)]
    ensures multiset(s) == multiset(DropLast(s)) + multiset{Last(s)}
  {
    assert s == DropLast(s) + [Last(s)];
  }

  /** `r` is obtained from `s` by deleting some elements, keeping the order
      of the rest. */
  ghost predicate IsSubsequence<T>(r: seq<T>, s: seq<T>)
    decreases |s|
  {
    if r == [] then true
    else if s == [] then false
    else (Last(r) == Last(s) && IsSubsequence(DropLast(r), DropLast(s)))
         || IsSubsequence(r, DropLast(s))
  }

  /** `Array.prototype.filter`: the elements satisfying `p`, in order. */
  function Filter<T(!new)>(s: seq<T>, p: T -> bool): (r: seq<T>)
    ensures |r| <= |s|
    ensures forall x :: x in r <==> x in s && p(x)
  {
    if s == [] then []
    else
      var front := Filter(DropLast(s), p);
      SplitLast(s);
      if p(Last(s)) then front + [Last(s)] else front
  }

  /** Each element passing the test is kept as often as it occurs; the
      others are dropped. */
  lemma {:induction false} FilterMultiset<T(!new)>(s: seq<T>, p: T -> bool)
    ensures forall x :: multiset(Filter(s, p))[x] == if p(x) then multiset(s)[x] else 0
  {
    if s != [] {
      FilterMultiset(DropLast(s), p);
      SplitLast(s);
    }
  }

  /** The kept elements are in their original order. */
  lemma {:induction false} FilterSubsequence<T(!new)>(s: seq<T>, p: T -> bool)
    ensures IsSubsequence(Filter(s, p), s)
  {
    if s != [] {
      FilterSubsequence(DropLast(s), p);
      var front := Filter(DropLast(s), p);
      if p(Last(s)) {
        var r := front + [Last(s)];
        assert Last(r) == Last(s) && DropLast(r) == front;
      } else if front != [] {
        assert IsSubsequence(front, DropLast(s));
      }
    }
  }

  /** When every element passes, nothing is dropped. */
  lemma {:induction false} FilterAll<T(!new)>(s: seq<T>, p: T -> bool)
    ensures (forall x :: x in s ==> p(x)) ==> Filter(s, p) == s
  {
    if s != [] {
      SplitLast(s);
      assert forall x :: x in DropLast(s) ==> x in s;
      FilterAll(DropLast(s), p);
    }
  }

  /** When no element passes, nothing is kept. */
  lemma {:induction false} FilterNone<T(!new)>(s: seq<T>, p: T -> bool)
    ensures (forall x :: x in s ==> !p(x)) ==> Filter(s, p) == []
  {
    if s != [] {
      SplitLast(s);
      assert forall x :: x in DropLast(s) ==> x in s;
      FilterNone(DropLast(s), p);
    }
  }

  /** Filtering distributes over concatenation. */
  lemma {:induction false} FilterConcat<T(!new)>(a: seq<T>, b: seq<T>, p: T -> bool)
    ensures Filter(a + b, p) == Filter(a, p) + Filter(b, p)
    decreases |b|
  {
    if b == [] {
      assert a + b == a;
    } else {
      assert DropLast(a + b) == a + DropLast(b);
      assert Last(a + b) == Last(b);
      FilterConcat(a, DropLast(b), p);
    }
  }

  /** No element of `s` occurs twice. */
  ghost predicate Distinct<T>(s: seq<T>) {
    forall i, j :: 0 <= i < j < |s| ==> s[i] != s[j]
  }

  lemma {:induction false} FilterDistinct<T(!new)>(s: seq<T>, p: T -> bool)
    requires Distinct(s)
    ensures Distinct(Filter(s, p))
  {
    var r := Filter(s, p);
    FilterMultiset(s, p);
    forall x | x in r ensures multiset(r)[x] == 1 {
      DistinctCount(s, x);
    }
    CountOneDistinct(r);
  }

  lemma {:induction false} DistinctCount<T>(s: seq<T>, x: T)
    requires Distinct(s) && x in s
    ensures multiset(s)[x] == 1
  {
    var i :| 0 <= i < |s| && s[i] == x;
    assert s == s[..i] + [s[i]] + s[i + 1..];
    assert x !in s[..i] by {
      forall k | 0 <= k < i ensures s[..i][k] != x { assert s[k] != s[i]; }
    }
    assert x !in s[i + 1..] by {
      var t := s[i + 1..];
      forall k | 0 <= k < |t| ensures t[k] != x { assert t[k] == s[i + 1 + k]; }
    }
  }

  lemma {:induction false} CountOneDistinct<T>(r: seq<T>)
    requires forall x :: x in r ==> multiset(r)[x] == 1
    ensures Distinct(r)
  {
    forall i, j | 0 <= i < j < |r| ensures r[i] != r[j] {
      assert r == r[..j] + [r[j]] + r[j + 1..];
      assert r[..j][i] == r[i];
      assert multiset(r[..j])[r[i]] >= 1;
      assert multiset(r)[r[j]] == multiset(r[..j])[r[j]] + 1 + multiset(r[j + 1..])[r[j]];
    }
  }

  /** A rearrangement of a list without repeats has no repeats. */
  lemma DistinctPermutation<T>(s: seq<T>, r: seq<T>)
    requires Distinct(s) && multiset(r) == multiset(s)
    ensures Distinct(r)
  {
    forall x | x in r ensures multiset(r)[x] == 1 {
      assert x in multiset(s);
      DistinctCount(s, x);
    }
    CountOneDistinct(r);
  }

  /** Two lists without repeats and without common elements join into one
      without repeats. */
  lemma DistinctConcat<T>(a: seq<T>, b: seq<T>)
    requires Distinct(a) && Distinct(b)
    requires forall x :: x in a ==> x !in b
    ensures Distinct(a + b)
  {
    var r := a + b;
    forall i, j | 0 <= i < j < |r| ensures r[i] != r[j] {
      if j < |a| {
        assert r[i] == a[i] && r[j] == a[j];
      } else if i >= |a| {
        assert r[i] == b[i - |a|] && r[j] == b[j - |a|];
      } else {
        assert r[i] == a[i] && r[i] in a;
        assert r[j] == b[j - |a|] && r[j] in b;
      }
    }
  }

  /** Filtering twice is filtering once by both tests. */
  lemma {:induction false} FilterFilter<T(!new)>(s: seq<T>, p: T -> bool, q: T -> bool, both: T -> bool)
    requires forall x :: both(x) == (p(x) && q(x))
    ensures Filter(Filter(s, p), q) == Filter(s, both)
    decreases |s|
  {
    if s != [] {
      FilterFilter(DropLast(s), p, q, both);
      var front := Filter(DropLast(s), p);
      if p(Last(s)) {
        var r := front + [Last(s)];
        assert DropLast(r) == front && Last(r) == Last(s);
      }
    }
  }

  /** Filters by tests that agree everywhere are equal. */
  lemma {:induction false} FilterSame<T(!new)>(s: seq<T>, p: T -> bool, q: T -> bool)
    requires forall x :: p(x) == q(x)
    ensures Filter(s, p) == Filter(s, q)
    decreases |s|
  {
    if s != [] {
      FilterSame(DropLast(s), p, q);
    }
  }
}
