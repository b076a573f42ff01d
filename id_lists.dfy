/** The list handlers every section editor shares: append an item, drop the
    items with an id (`filter`), change the items with an id (`map`), and
    swap an item with a neighbour on a copied array. */
module IdLists {
  import opened Seqs

  /** `xs.filter(x => x.id !== id)`. */
  function RemoveById<T(!new)>(xs: seq<T>, id: string, idOf: T -> string): (r: seq<T>)
    ensures forall x :: x in r <==> x in xs && idOf(x) != id
    ensures IsSubsequence(r, xs)
    ensures (forall x :: x in xs ==> idOf(x) != id) ==> r == xs
  {
    var keep := (x: T) => idOf(x) != id;
    FilterSubsequence(xs, keep);
    FilterAll(xs, keep);
    Filter(xs, keep)
  }

  /** `xs.map(x => x.id === id ? f(x) : x)`. */
  function UpdateById<T>(xs: seq<T>, id: string, idOf: T -> string, f: T -> T): (r: seq<T>)
    ensures |r| == |xs|
    ensures forall i :: 0 <= i < |xs| ==> r[i] == if idOf(xs[i]) == id then f(xs[i]) else xs[i]
  {
    if xs == [] then []
    else [if idOf(xs[0]) == id then f(xs[0]) else xs[0]] + UpdateById(xs[1..], id, idOf, f)
  }

  /** An update whose change keeps ids leaves every id where it was. */
  lemma UpdateKeepsIds<T>(xs: seq<T>, id: string, idOf: T -> string, f: T -> T, i: int)
    requires forall x :: idOf(f(x)) == idOf(x)
    requires 0 <= i < |xs|
    ensures idOf(UpdateById(xs, id, idOf, f)[i]) == idOf(xs[i])
  {
  }

  /** With a change that keeps ids, a second update of the same id by a
      change that overwrites the first gives the same list as the second
      update alone. */
  lemma {:induction false} UpdateOverwrite<T>(xs: seq<T>, id: string, idOf: T -> string, f: T -> T, g: T -> T)
    requires forall x :: idOf(f(x)) == idOf(x)
    requires forall x :: g(f(x)) == g(x)
    ensures UpdateById(UpdateById(xs, id, idOf, f), id, idOf, g) == UpdateById(xs, id, idOf, g)
  {
    var once := UpdateById(xs, id, idOf, f);
    var r := UpdateById(once, id, idOf, g);
    forall i | 0 <= i < |xs| ensures r[i] == UpdateById(xs, id, idOf, g)[i] {
      assert idOf(once[i]) == idOf(xs[i]);
    }
  }

  /** Appending an item with a fresh id and then removing that id restores
      the list. */
  lemma {:induction false} AppendThenRemove<T(!new)>(xs: seq<T>, x: T, idOf: T -> string)
    requires forall y :: y in xs ==> idOf(y) != idOf(x)
    ensures RemoveById(xs + [x], idOf(x), idOf) == xs
  {
    var p := (y: T) => idOf(y) != idOf(x);
    FilterConcat(xs, [x], p);
    FilterAll(xs, p);
    assert DropLast([x]) == [];
    assert Filter([x], p) == [];
  }

  /** Removing an id after an append is removing it before the append,
      unless the appended item carries that id. */
  lemma {:induction false} RemoveAfterAppend<T(!new)>(xs: seq<T>, x: T, id: string, idOf: T -> string)
    requires idOf(x) != id
    ensures RemoveById(xs + [x], id, idOf) == RemoveById(xs, id, idOf) + [x]
  {
    var p := (y: T) => idOf(y) != id;
    FilterConcat(xs, [x], p);
    assert DropLast([x]) == [] && Last([x]) == x;
  }

  /** `xs` with the elements at `i` and `j` exchanged. */
  function Swap<T>(xs: seq<T>, i: nat, j: nat): (r: seq<T>)
    requires i < |xs| && j < |xs|
    ensures |r| == |xs| && r[i] == xs[j] && r[j] == xs[i]
    ensures forall k :: 0 <= k < |xs| && k != i && k != j ==> r[k] == xs[k]
  {
    xs[i := xs[j]][j := xs[i]]
  }

  /** A swap keeps the same elements. */
  lemma SwapPermutes<T>(xs: seq<T>, i: nat, j: nat)
    requires i < |xs| && j < |xs|
    ensures multiset(Swap(xs, i, j)) == multiset(xs)
  {
    var t := xs[i := xs[j]];
    assert multiset(t) == multiset(xs) - multiset{xs[i]} + multiset{xs[j]};
  }

  /** Swapping twice restores the list. */
  lemma SwapTwice<T>(xs: seq<T>, i: nat, j: nat)
    requires i < |xs| && j < |xs|
    ensures Swap(Swap(xs, i, j), i, j) == xs
  {
  }

  /** `handleMoveUp(index)` on a copied array: nothing at the top, otherwise
      the item trades places with the one above it. */
  method MoveUp<T>(xs: seq<T>, index: nat) returns (r: seq<T>)
    requires index < |xs|
    ensures index == 0 ==> r == xs
    ensures index > 0 ==> r == Swap(xs, index - 1, index)
  {
    if index == 0 {
      return xs;
    }
    var copy := new T[|xs|](k requires 0 <= k < |xs| => xs[k]);
    copy[index - 1], copy[index] := copy[index], copy[index - 1];
    r := copy[..];
  }

  /** `handleMoveDown(index)` on a copied array: nothing at the bottom,
      otherwise the item trades places with the one below it. */
  method MoveDown<T>(xs: seq<T>, index: nat) returns (r: seq<T>)
    requires index < |xs|
    ensures index == |xs| - 1 ==> r == xs
    ensures index < |xs| - 1 ==> r == Swap(xs, index, index + 1)
  {
    if index == |xs| - 1 {
      return xs;
    }
    var copy := new T[|xs|](k requires 0 <= k < |xs| => xs[k]);
    copy[index], copy[index + 1] := copy[index + 1], copy[index];
    r := copy[..];
  }

  /** Moving an item down and then the item now below it up restores the
      list; so does up and then down. */
  lemma MoveDownUndoesMoveUp<T>(xs: seq<T>, index: nat)
    requires 0 < index < |xs|
    ensures Swap(Swap(xs, index - 1, index), index - 1, index) == xs
  {
    SwapTwice(xs, index - 1, index);
  }

  /** `xs` with the element at `i` taken out. */
  function RemoveAt<T>(xs: seq<T>, i: nat): (r: seq<T>)
    requires i < |xs|
    ensures |r| == |xs| - 1
  {
    xs[..i] + xs[i + 1..]
  }

  /** The two `splice` calls of a drag-and-drop move: take the element at
      `from` out, then insert it so that it sits at index `to`. */
  function MoveTo<T>(xs: seq<T>, from: nat, to: nat): (r: seq<T>)
    requires from < |xs| && to < |xs|
    ensures |r| == |xs|
  {
    var rest := RemoveAt(xs, from);
    rest[..to] + [xs[from]] + rest[to..]
  }

  /** The moved element lands at `to`, the others keep their relative
      order, and nothing is lost or duplicated. */
  lemma MoveToProperties<T>(xs: seq<T>, from: nat, to: nat)
    requires from < |xs| && to < |xs|
    ensures MoveTo(xs, from, to)[to] == xs[from]
    ensures RemoveAt(MoveTo(xs, from, to), to) == RemoveAt(xs, from)
    ensures multiset(MoveTo(xs, from, to)) == multiset(xs)
  {
    var rest := RemoveAt(xs, from);
    var r := MoveTo(xs, from, to);
    assert r[..to] == rest[..to];
    assert r[to + 1..] == rest[to..];
    assert rest[..to] + rest[to..] == rest;
    assert xs == xs[..from] + [xs[from]] + xs[from + 1..];
    assert multiset(xs) == multiset(rest) + multiset{xs[from]};
    assert r == rest[..to] + [xs[from]] + rest[to..];
    assert multiset(r) == multiset(rest[..to]) + multiset{xs[from]} + multiset(rest[to..]);
  }

  /** The element `MoveTo` puts at index `m`: elements between the two
      positions shift by one towards `from`. */
  function MovedAt<T>(xs: seq<T>, from: nat, to: nat, m: nat): T
    requires from < |xs| && to < |xs| && m < |xs|
  {
    if m == to then xs[from]
    else if from <= m < to then xs[m + 1]
    else if to < m <= from then xs[m - 1]
    else xs[m]
  }

  lemma MoveToPointwise<T>(xs: seq<T>, from: nat, to: nat)
    requires from < |xs| && to < |xs|
    ensures forall m :: 0 <= m < |xs| ==> MoveTo(xs, from, to)[m] == MovedAt(xs, from, to, m)
  {
    var rest := RemoveAt(xs, from);
    var r := MoveTo(xs, from, to);
    assert forall j :: 0 <= j < |rest| ==> rest[j] == if j < from then xs[j] else xs[j + 1];
    assert forall m :: 0 <= m < |r| ==> r[m] == if m < to then rest[m] else if m == to then xs[from] else rest[m - 1];
  }

  /** The two `splice` calls done in place: the element at `from` is taken
      out and reinserted at `to`, the elements between shifting over. */
  method MoveInPlace<T>(a: array<T>, from: nat, to: nat)
    requires from < a.Length && to < a.Length
    modifies a
    ensures a[..] == MoveTo(old(a[..]), from, to)
  {
    ghost var s := a[..];
    var x := a[from];
    if from < to {
      ShiftDown(a, from, to);
    } else if to < from {
      ShiftUp(a, to, from);
    }
    a[to] := x;
    MoveToPointwise(s, from, to);
    assert forall m :: 0 <= m < a.Length ==> a[m] == MoveTo(s, from, to)[m];
  }

  /** Each element of `a[lo + 1..hi + 1]` moves one place down. */
  method ShiftDown<T>(a: array<T>, lo: nat, hi: nat)
    requires lo < hi < a.Length
    modifies a
    ensures forall m :: lo <= m < hi ==> a[m] == old(a[m + 1])
    ensures forall m :: 0 <= m < a.Length && (m < lo || m >= hi) ==> a[m] == old(a[m])
  {
    var k := lo;
    while k < hi
      invariant lo <= k <= hi
      invariant forall m :: lo <= m < k ==> a[m] == old(a[m + 1])
      invariant forall m :: 0 <= m < a.Length && (m < lo || m >= k) ==> a[m] == old(a[m])
    {
      a[k] := a[k + 1];
      k := k + 1;
    }
  }

  /** Each element of `a[lo..hi]` moves one place up. */
  method ShiftUp<T>(a: array<T>, lo: nat, hi: nat)
    requires lo < hi < a.Length
    modifies a
    ensures forall m :: lo < m <= hi ==> a[m] == old(a[m - 1])
    ensures forall m :: 0 <= m < a.Length && (m <= lo || m > hi) ==> a[m] == old(a[m])
  {
    var k := hi;
    while k > lo
      invariant lo <= k <= hi
      invariant forall m :: k < m <= hi ==> a[m] == old(a[m - 1])
      invariant forall m :: 0 <= m < a.Length && (m <= k || m > hi) ==> a[m] == old(a[m])
    {
      a[k] := a[k - 1];
      k := k - 1;
    }
  }

  /** `xs.findIndex(x => idOf(x) === id)`: the first index holding the id,
      or -1. */
  function FindIndex<T>(xs: seq<T>, id: string, idOf: T -> string): (r: int)
    ensures -1 <= r < |xs|
    ensures r == -1 <==> forall k :: 0 <= k < |xs| ==> idOf(xs[k]) != id
    ensures r >= 0 ==> idOf(xs[r]) == id && forall k :: 0 <= k < r ==> idOf(xs[k]) != id
  {
    if xs == [] then -1
    else if idOf(xs[0]) == id then 0
    else
      var r := FindIndex(xs[1..], id, idOf);
      assert forall k :: 1 <= k < |xs| ==> xs[k] == xs[1..][k - 1];
      if r == -1 then -1 else r + 1
  }
}
