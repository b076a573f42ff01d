/** A plain JavaScript object `{}` used as a dictionary: the names it
    inherits from `Object.prototype`, and the order in which `Object.keys`
    lists its own keys. */
module JsObjects {
  import opened Seqs
  import opened Strings
  import opened Sorting

  /** The properties every `{}` inherits from `Object.prototype`. Reading
      one on an object that has no own property of that name gives a
      truthy value that is not an array: a function, or the prototype
      itself for `__proto__`. */
  const InheritedKeys: set<string> := {
    "constructor", "__proto__", "hasOwnProperty", "isPrototypeOf",
    "propertyIsEnumerable", "toLocaleString", "toString", "valueOf",
    "__defineGetter__", "__defineSetter__", "__lookupGetter__", "__lookupSetter__"
  }

  predicate Inherited(k: string) {
    k in InheritedKeys
  }

  predicate AllDigits(k: string) {
    forall i :: 0 <= i < |k| ==> IsDigit(k[i])
  }

  /** An array index: the decimal form, without leading zeros, of an
      integer from 0 to 2^32 - 2. */
  predicate IsArrayIndex(k: string) {
    k != [] && AllDigits(k) && (k[0] != '0' || |k| == 1) && DigitsValue(k) <= 0xFFFF_FFFE
  }

  predicate NotArrayIndex(k: string) {
    !IsArrayIndex(k)
  }

  /** The numeric value of a key made of digits. */
  function IndexValue(k: string): int {
    if AllDigits(k) then DigitsValue(k) else 0
  }

  /** Ascending numeric order of array indices. */
  function IndexCmp(a: string, b: string): int {
    IndexValue(a) - IndexValue(b)
  }

  /** `Object.keys` of an object whose own properties were created in the
      order `created`: the array indices first, in ascending numeric order,
      then the other keys in creation order. */
  function Keys(created: seq<string>): (r: seq<string>)
    ensures multiset(r) == multiset(created)
  {
    var indices, names := Filter(created, IsArrayIndex), Filter(created, NotArrayIndex);
    FilterMultiset(created, IsArrayIndex);
    FilterMultiset(created, NotArrayIndex);
    assert multiset(indices) + multiset(names) == multiset(created);
    SortBy(indices, IndexCmp) + names
  }

  /** The keys listed are the keys created, and none repeats when none was
      created twice. */
  lemma KeysMembers(created: seq<string>)
    ensures forall k :: k in Keys(created) <==> k in created
    ensures Distinct(created) ==> Distinct(Keys(created))
  {
    var r := Keys(created);
    forall k ensures k in r <==> k in created {
      assert k in r <==> k in multiset(r);
    }
    if Distinct(created) {
      DistinctPermutation(created, r);
    }
  }

  /** The array indices come first, ascending by value; after them come
      the other keys, in the order they were created. */
  lemma KeysOrder(created: seq<string>)
    ensures var r := Keys(created);
            var n := |Filter(created, IsArrayIndex)|;
            && n <= |r|
            && (forall i :: 0 <= i < |r| ==> (IsArrayIndex(r[i]) <==> i < n))
            && (forall i, j :: 0 <= i < j < n ==> IndexValue(r[i]) <= IndexValue(r[j]))
            && r[n..] == Filter(created, NotArrayIndex)
  {
    var indices := Filter(created, IsArrayIndex);
    var sorted := SortBy(indices, IndexCmp);
    var r := Keys(created);
    assert r == sorted + Filter(created, NotArrayIndex);
    assert KeyedOn(indices, IndexCmp, IndexValue);
    SortByKeySorted(indices, IndexCmp, IndexValue);
    forall i | 0 <= i < |sorted| ensures IsArrayIndex(r[i]) {
      assert r[i] == sorted[i];
      assert sorted[i] in multiset(indices);
    }
    forall i | |sorted| <= i < |r| ensures !IsArrayIndex(r[i]) {
      assert r[i] in Filter(created, NotArrayIndex);
    }
  }

  /** With no array index among them, the keys keep their creation order. */
  lemma KeysOfNames(created: seq<string>)
    requires forall k :: k in created ==> !IsArrayIndex(k)
    ensures Keys(created) == created
  {
    FilterNone(created, IsArrayIndex);
    FilterAll(created, NotArrayIndex);
  }

  /** A year-like category created after a word comes before it. */
  lemma NumericKeyFirst()
    ensures Keys(["Tools", "2024"]) == ["2024", "Tools"]
  {
    YearIsIndex();
    assert !IsArrayIndex("Tools") by { assert !IsDigit("Tools"[0]); }
    IndexKeyFirst("Tools", "2024");
  }

  /** A key that is an array index is listed before a name created
      earlier. */
  lemma IndexKeyFirst(name: string, index: string)
    requires NotArrayIndex(name) && IsArrayIndex(index)
    ensures Keys([name, index]) == [index, name]
  {
    var created := [name, index];
    assert DropLast(created) == [name] && Last(created) == index;
    assert DropLast([name]) == [];
    assert Filter(created, IsArrayIndex) == [index];
    assert Filter(created, NotArrayIndex) == [name];
    assert SortBy([index], IndexCmp) == [index] by { assert DropLast([index]) == []; }
  }

  lemma YearIsIndex()
    ensures IsArrayIndex("2024")
  {
    var y := "2024";
    assert AllDigits(y);
    assert y[..3] == "202" && "202"[..2] == "20" && "20"[..1] == "2" && "2"[..0] == "";
    assert DigitsValue("2") == 2;
    assert DigitsValue("20") == 20;
    assert DigitsValue("202") == 202;
    assert DigitsValue(y) == 2024;
  }
}
