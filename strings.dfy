/** JavaScript string operations the CV builder relies on, over `seq<char>`:
    `trim` and the regex class `\s` (one whitespace set), `split` on a single
    character, `join`, `includes`, `repeat`, ASCII case mapping, number
    printing and the default `Array.prototype.sort` string order. */
module Strings {
  import opened Seqs
  import opened Sorting

  /** The characters JavaScript's `trim` removes and `\s` matches: the
      ECMAScript WhiteSpace and LineTerminator productions. */
  predicate IsWhitespace(c: char) {
    || c == '\t' || c == '\n' || c == '\U{000B}' || c == '\U{000C}' || c == '\r' || c == ' '
    || c == '\U{00A0}' || c == '\U{1680}' || ('\U{2000}' <= c <= '\U{200A}')
    || c == '\U{2028}' || c == '\U{2029}' || c == '\U{202F}' || c == '\U{205F}'
    || c == '\U{3000}' || c == '\U{FEFF}'
  }

  predicate AllWhitespace(s: string) {
    forall i :: 0 <= i < |s| ==> IsWhitespace(s[i])
  }

  /** Leading whitespace removed. */
  function TrimStart(s: string): (r: string)
    ensures |r| <= |s| && r == s[|s| - |r|..]
    ensures AllWhitespace(s[..|s| - |r|])
    ensures r == [] || !IsWhitespace(r[0])
  {
    if s == [] || !IsWhitespace(s[0]) then s
    else
      var r := TrimStart(s[1..]);
      assert s[1..][..|s| - 1 - |r|] == s[1..|s| - |r|];
      r
  }

  /** Trailing whitespace removed. */
  function TrimEnd(s: string): (r: string)
    ensures |r| <= |s| && r == s[..|r|]
    ensures AllWhitespace(s[|r|..])
    ensures r == [] || !IsWhitespace(r[|r| - 1])
  {
    if s == [] || !IsWhitespace(s[|s| - 1]) then s
    else
      var r := TrimEnd(s[..|s| - 1]);
      assert s[..|s| - 1][|r|..] == s[|r|..|s| - 1];
      r
  }

  /** `String.prototype.trim`. */
  function Trim(s: string): (r: string)
    ensures |r| <= |s|
    ensures r == [] || (!IsWhitespace(r[0]) && !IsWhitespace(r[|r| - 1]))
  {
    TrimEnd(TrimStart(s))
  }

  /** A string trims to nothing exactly when it is all whitespace. */
  lemma TrimEmptyIff(s: string)
    ensures Trim(s) == [] <==> AllWhitespace(s)
  {
    var t := TrimStart(s);
    if Trim(s) == [] {
      assert TrimEnd(t) == [];
      assert t == t[0..];
      assert AllWhitespace(t);
      assert t == [];
      assert s[..|s|] == s;
    }
    if AllWhitespace(s) {
      AllWhitespaceTrimStart(s);
    }
  }

  lemma AllWhitespaceTrimStart(s: string)
    requires AllWhitespace(s)
    ensures TrimStart(s) == []
  {
    if s != [] {
      assert AllWhitespace(s[1..]) by {
        forall i | 0 <= i < |s| - 1 ensures IsWhitespace(s[1..][i]) { assert s[1..][i] == s[i + 1]; }
      }
      AllWhitespaceTrimStart(s[1..]);
    }
  }

  /** Trimming twice is trimming once. */
  lemma TrimIdempotent(s: string)
    ensures Trim(Trim(s)) == Trim(s)
  {
  }

  /** `s` neither starts nor ends with whitespace. */
  predicate Trimmed(s: string) {
    s == [] || (!IsWhitespace(s[0]) && !IsWhitespace(s[|s| - 1]))
  }

  /** A string is its own trim exactly when it neither starts nor ends
      with whitespace. */
  lemma TrimFixed(s: string)
    ensures Trim(s) == s <==> Trimmed(s)
  {
  }

  /** Whitespace put in front of a trimmed string is removed again. */
  lemma TrimPadded(pad: string, t: string)
    requires AllWhitespace(pad)
    requires Trimmed(t)
    ensures Trim(pad + t) == t
    decreases |pad|
  {
    if pad != [] {
      assert (pad + t)[1..] == pad[1..] + t;
      TrimPadded(pad[1..], t);
    } else {
      assert pad + t == t;
      TrimFixed(t);
    }
  }

  /** Occurrences of `c` in `s`. */
  function Count(s: string, c: char): nat {
    if s == [] then 0 else (if s[0] == c then 1 else 0) + Count(s[1..], c)
  }

  /** `s.split(c)` for a one-character separator: the pieces between the
      occurrences of `c`; there is always at least one piece. */
  function Split(s: string, c: char): (r: seq<string>)
    ensures |r| == Count(s, c) + 1
    ensures forall i :: 0 <= i < |r| ==> c !in r[i]
  {
    if s == [] then [[]]
    else if s[0] == c then [[]] + Split(s[1..], c)
    else
      var rest := Split(s[1..], c);
      [[s[0]] + rest[0]] + rest[1..]
  }

  /** `parts.join(sep)`. */
  function Join(parts: seq<string>, sep: string): string {
    if parts == [] then []
    else if |parts| == 1 then parts[0]
    else parts[0] + sep + Join(parts[1..], sep)
  }

  /** Joining the pieces of a split with the separator gives the string back. */
  lemma {:induction false} JoinSplit(s: string, c: char)
    ensures Join(Split(s, c), [c]) == s
  {
    if s == [] {
    } else if s[0] == c {
      JoinSplit(s[1..], c);
      var rest := Split(s[1..], c);
      assert ([[]] + rest)[1..] == rest;
    } else {
      JoinSplit(s[1..], c);
      var rest := Split(s[1..], c);
      var r := [[s[0]] + rest[0]] + rest[1..];
      if |rest| == 1 {
        assert Join(rest, [c]) == rest[0];
      } else {
        assert Join(rest, [c]) == rest[0] + [c] + Join(rest[1..], [c]);
        assert r[1..] == rest[1..];
      }
    }
  }

  /** Splitting a join recovers the parts when no part holds the separator. */
  lemma {:induction false} SplitJoin(parts: seq<string>, c: char)
    requires |parts| > 0
    requires forall i :: 0 <= i < |parts| ==> c !in parts[i]
    ensures Split(Join(parts, [c]), c) == parts
    decreases |parts|, |parts[0]|
  {
    var p := parts[0];
    if p == [] {
      if |parts| > 1 {
        JoinEmptyHead(parts, c);
        SplitJoin(parts[1..], c);
      }
    } else {
      var shorter := [p[1..]] + parts[1..];
      assert p[0] != c by { assert p[0] in p; }
      forall i | 0 <= i < |shorter| ensures c !in shorter[i] {
        if i == 0 { assert forall x :: x in p[1..] ==> x in p; }
        else { assert shorter[i] == parts[i]; }
      }
      SplitJoin(shorter, c);
      JoinShorterHead(parts, c);
      assert [p[0]] + p[1..] == p;
      assert parts == [p] + parts[1..];
    }
  }

  /** A join whose first part is empty starts with the separator. */
  lemma JoinEmptyHead(parts: seq<string>, c: char)
    requires |parts| > 1 && parts[0] == []
    ensures Join(parts, [c]) == [c] + Join(parts[1..], [c])
    ensures Join(parts, [c])[1..] == Join(parts[1..], [c])
  {
    assert Join(parts, [c]) == [c] + Join(parts[1..], [c]);
  }

  /** A join whose first part is not empty starts with that part's first
      character, followed by the join with that character removed. */
  lemma JoinShorterHead(parts: seq<string>, c: char)
    requires |parts| > 0 && parts[0] != []
    ensures var j := Join(parts, [c]);
            |j| > 0 && j[0] == parts[0][0] && j[1..] == Join([parts[0][1..]] + parts[1..], [c])
  {
    var p := parts[0];
    var shorter := [p[1..]] + parts[1..];
    var j := Join(parts, [c]);
    if |parts| == 1 {
      assert j == p && Join(shorter, [c]) == p[1..];
    } else {
      assert shorter[1..] == parts[1..];
      assert Join(shorter, [c]) == p[1..] + [c] + Join(parts[1..], [c]);
      var rest := [c] + Join(parts[1..], [c]);
      assert j == p + rest;
      assert Join(shorter, [c]) == p[1..] + rest;
      assert (p + rest)[1..] == p[1..] + rest;
    }
  }

  /** `haystack.includes(needle)`: `needle` occurs at some position. */
  predicate Contains(haystack: string, needle: string) {
    exists i :: 0 <= i <= |haystack| && needle <= haystack[i..]
  }

  /** A text that contains a needle contains the needle without its first
      character. */
  lemma ContainsTail(haystack: string, needle: string)
    requires |needle| > 0 && Contains(haystack, needle)
    ensures Contains(haystack, needle[1..])
  {
    var i :| 0 <= i <= |haystack| && needle <= haystack[i..];
    assert needle[1..] <= haystack[i + 1..];
  }

  /** `haystack.includes(needle)`, computed by scanning from the left. */
  function Includes(haystack: string, needle: string): (r: bool)
    ensures r <==> Contains(haystack, needle)
    decreases |haystack|
  {
    if needle <= haystack then
      assert needle <= haystack[0..];
      true
    else if haystack == [] then
      false
    else
      var r := Includes(haystack[1..], needle);
      assert r <==> Contains(haystack, needle) by {
        if Contains(haystack, needle) {
          var i :| 0 <= i <= |haystack| && needle <= haystack[i..];
          assert i != 0;
          assert haystack[1..][i - 1..] == haystack[i..];
        }
        if r {
          var i :| 0 <= i <= |haystack| - 1 && needle <= haystack[1..][i..];
          assert haystack[1..][i..] == haystack[i + 1..];
        }
      }
      r
  }

  /** `c.repeat(n)` for a one-character string. */
  function Repeat(c: char, n: nat): (r: string)
    ensures |r| == n && forall i :: 0 <= i < n ==> r[i] == c
  {
    if n == 0 then [] else [c] + Repeat(c, n - 1)
  }

  function UpperChar(c: char): char {
    if 'a' <= c <= 'z' then (c as int - 32) as char else c
  }

  function LowerChar(c: char): char {
    if 'A' <= c <= 'Z' then (c as int + 32) as char else c
  }

  /** `toUpperCase` restricted to the ASCII letters. */
  function ToUpper(s: string): (r: string)
    ensures |r| == |s| && forall i :: 0 <= i < |s| ==> r[i] == UpperChar(s[i])
  {
    if s == [] then [] else [UpperChar(s[0])] + ToUpper(s[1..])
  }

  /** `toLowerCase` restricted to the ASCII letters. */
  function ToLower(s: string): (r: string)
    ensures |r| == |s| && forall i :: 0 <= i < |s| ==> r[i] == LowerChar(s[i])
  {
    if s == [] then [] else [LowerChar(s[0])] + ToLower(s[1..])
  }

  /** `s.charAt(0).toUpperCase() + s.slice(1)`. */
  function Capitalize(s: string): (r: string)
    ensures |r| == |s|
    ensures s != [] ==> r[0] == UpperChar(s[0]) && r[1..] == s[1..]
  {
    if s == [] then [] else ToUpper(s[..1]) + s[1..]
  }

  predicate IsDigit(c: char) {
    '0' <= c <= '9'
  }

  function DigitChar(d: nat): char
    requires d < 10
  {
    ('0' as int + d) as char
  }

  /** Decimal digits of `n`, as `String(n)` prints a non-negative integer. */
  function NatToString(n: nat): (r: string)
    ensures |r| > 0
    ensures forall i :: 0 <= i < |r| ==> IsDigit(r[i])
    ensures n > 0 ==> r[0] != '0'
  {
    if n < 10 then [DigitChar(n)] else NatToString(n / 10) + [DigitChar(n % 10)]
  }

  /** The value written by a string of decimal digits. */
  function DigitsValue(s: string): nat
    requires forall i :: 0 <= i < |s| ==> IsDigit(s[i])
  {
    if s == [] then 0
    else
      assert IsDigit(s[|s| - 1]);
      DigitsValue(s[..|s| - 1]) * 10 + (s[|s| - 1] as int - '0' as int) as nat
  }

  /** Printing in decimal is undone by reading the digits back; hence
      distinct numbers print differently. */
  lemma {:induction false} NatToStringValue(n: nat)
    ensures DigitsValue(NatToString(n)) == n
  {
    if n >= 10 {
      NatToStringValue(n / 10);
      var r := NatToString(n);
      assert r[..|r| - 1] == NatToString(n / 10);
    }
  }

  lemma NatToStringInjective(m: nat, n: nat)
    requires NatToString(m) == NatToString(n)
    ensures m == n
  {
    NatToStringValue(m);
    NatToStringValue(n);
  }

  /** `String(n)` for an integer. */
  function IntToString(n: int): (r: string)
    ensures |r| > 0
  {
    if n < 0 then "-" + NatToString(-n) else NatToString(n)
  }

  /** The UTF-16 code units of a character: the character itself below
      U+10000, otherwise a high surrogate (U+D800 to U+DBFF) and a low
      one (U+DC00 to U+DFFF). */
  function CodeUnits(c: char): (r: seq<int>)
    ensures 1 <= |r| <= 2
    ensures forall k :: 0 <= k < |r| ==> 0 <= r[k] < 0x1_0000
    ensures |r| == 2 <==> 0xD800 <= r[0] < 0xDC00
  {
    var n := c as int;
    if n < 0x1_0000 then [n] else [0xD800 + (n - 0x1_0000) / 0x400, 0xDC00 + (n - 0x1_0000) % 0x400]
  }

  /** Different characters have different code units. */
  lemma CodeUnitsInjective(c: char, d: char)
    requires CodeUnits(c) == CodeUnits(d)
    ensures c == d
  {
    var m, n := c as int, d as int;
    if m >= 0x1_0000 {
      assert m - 0x1_0000 == (m - 0x1_0000) / 0x400 * 0x400 + (m - 0x1_0000) % 0x400;
      assert n - 0x1_0000 == (n - 0x1_0000) / 0x400 * 0x400 + (n - 0x1_0000) % 0x400;
    }
  }

  /** The UTF-16 encoding of a string, the units JavaScript compares. */
  function Utf16(s: string): seq<int> {
    if s == [] then [] else CodeUnits(s[0]) + Utf16(s[1..])
  }

  /** Different strings have different encodings. */
  lemma {:induction false} Utf16Injective(a: string, b: string)
    ensures Utf16(a) == Utf16(b) ==> a == b
  {
    if Utf16(a) == Utf16(b) && a != [] && b != [] {
      var x, y := CodeUnits(a[0]), CodeUnits(b[0]);
      assert Utf16(a)[0] == x[0] && Utf16(b)[0] == y[0];
      var k := |x|;
      assert |y| == k;
      assert x == Utf16(a)[..k] && y == Utf16(b)[..k];
      CodeUnitsInjective(a[0], b[0]);
      assert Utf16(a[1..]) == Utf16(a)[k..] && Utf16(b[1..]) == Utf16(b)[k..];
      Utf16Injective(a[1..], b[1..]);
      assert a == [a[0]] + a[1..] && b == [b[0]] + b[1..];
    }
  }

  /** Lexicographic three-way comparison of code-unit sequences. */
  function UnitsCmp(x: seq<int>, y: seq<int>): (r: int)
    ensures -1 <= r <= 1
    ensures r == 0 <==> x == y
  {
    if x == [] && y == [] then 0
    else if x == [] then -1
    else if y == [] then 1
    else if x[0] < y[0] then -1
    else if y[0] < x[0] then 1
    else
      var r := UnitsCmp(x[1..], y[1..]);
      assert r == 0 ==> x == [x[0]] + x[1..] == [y[0]] + y[1..] == y;
      r
  }

  lemma UnitsCmpAntisymmetric(x: seq<int>, y: seq<int>)
    ensures UnitsCmp(x, y) == -UnitsCmp(y, x)
  {
  }

  lemma {:induction false} UnitsCmpTransitive(x: seq<int>, y: seq<int>, z: seq<int>)
    requires UnitsCmp(x, y) <= 0 && UnitsCmp(y, z) <= 0
    ensures UnitsCmp(x, z) <= 0
  {
    if x != [] && y != [] && z != [] && x[0] == y[0] == z[0] {
      UnitsCmpTransitive(x[1..], y[1..], z[1..]);
    }
  }

  /** The three-way comparison the default `sort` applies to strings:
      lexicographic by UTF-16 code unit. A character above U+FFFF starts
      with a high surrogate, so it sorts before U+E000 to U+FFFF although
      its code point is larger. */
  function LexCmp(a: string, b: string): (r: int)
    ensures -1 <= r <= 1
    ensures r == 0 <==> a == b
  {
    Utf16Injective(a, b);
    UnitsCmp(Utf16(a), Utf16(b))
  }

  lemma LexCmpAntisymmetric(a: string, b: string)
    ensures LexCmp(a, b) == -LexCmp(b, a)
  {
    UnitsCmpAntisymmetric(Utf16(a), Utf16(b));
  }

  /** `LexCmp(_, _) <= 0` is transitive, so with its antisymmetry it is a
      total order. */
  lemma LexCmpTransitive(a: string, b: string, c: string)
    requires LexCmp(a, b) <= 0 && LexCmp(b, c) <= 0
    ensures LexCmp(a, c) <= 0
  {
    UnitsCmpTransitive(Utf16(a), Utf16(b), Utf16(c));
  }

  /** U+1F600 sorts before U+FF01, against code-point order: its first
      unit is 0xD83D. */
  lemma SupplementaryBeforeHighBmp()
    ensures LexCmp("\U{1F600}", "\U{FF01}") < 0
    ensures '\U{1F600}' as int > '\U{FF01}' as int
  {
    assert CodeUnits('\U{1F600}') == [0xD83D, 0xDE00];
    assert Utf16("\U{1F600}") == [0xD83D, 0xDE00];
    assert Utf16("\U{FF01}") == [0xFF01];
  }

  lemma LexCmpPreorder(s: seq<string>)
    ensures TotalPreorderOn(s, LexCmp)
  {
    forall a, b ensures LexCmp(a, b) <= 0 || LexCmp(b, a) <= 0 {
      LexCmpAntisymmetric(a, b);
    }
    forall a, b, c | LexCmp(a, b) <= 0 && LexCmp(b, c) <= 0 ensures LexCmp(a, c) <= 0 {
      LexCmpTransitive(a, b, c);
    }
  }
}
