/** The month/year helpers. A date the code parses with `new Date` is seen
    here as what the parse yields: nothing for an empty string, an invalid
    date, or a year and a calendar month 1..12. */
module DateUtils {
  import opened Wrappers
  import opened Seqs
  import opened Strings

  type Month = m: int | 1 <= m <= 12 witness 1

  datatype YearMonth = YearMonth(year: int, month: Month)

  /** A date argument: the empty string, a string `new Date` cannot read,
      or a readable date. */
  datatype DateInput = Absent | Invalid | Valid(date: YearMonth)

  /** `String(m).padStart(2, '0')`. */
  function Pad2(m: Month): (r: string)
    ensures |r| == 2 && forall i :: 0 <= i < 2 ==> IsDigit(r[i])
  {
    if m < 10 then "0" + NatToString(m) else NatToString(m)
  }

  /** Month `m` in two digits reads back as `m`. */
  lemma Pad2Value(m: Month)
    ensures DigitsValue(Pad2(m)) == m
  {
    NatToStringValue(m);
    if m < 10 {
      var d := NatToString(m);
      assert Pad2(m)[..1] == "0" && Pad2(m)[1] == d[0];
      assert d[..0] == [];
    }
  }

  /** `formatDate`: empty for an empty argument, `NaN/NaN` for an invalid
      date, else the two-digit month, `/` and the year. */
  function FormatDate(d: DateInput): string {
    match d
    case Absent => ""
    case Invalid => "NaN/NaN"
    case Valid(ym) => Pad2(ym.month) + "/" + IntToString(ym.year)
  }

  /** A formatted date is empty only for an empty argument; for a date of a
      year from 0 on, month and year read back from either side of the
      `/`. */
  lemma FormatDateReadsBack(d: DateInput)
    ensures FormatDate(d) == "" <==> d.Absent?
    ensures d.Valid? && d.date.year >= 0 ==>
              var r := FormatDate(d);
              && |r| >= 4 && r[2] == '/'
              && (forall i :: 0 <= i < |r| && i != 2 ==> IsDigit(r[i]))
              && DigitsValue(r[..2]) == d.date.month
              && DigitsValue(r[3..]) == d.date.year
  {
    if d.Valid? && d.date.year >= 0 {
      var r := FormatDate(d);
      assert r[..2] == Pad2(d.date.month) && r[3..] == NatToString(d.date.year);
      Pad2Value(d.date.month);
      NatToStringValue(d.date.year);
    }
  }

  /** `formatDateRange`: the start, ` - `, then the end, or `Present` when
      there is no end. The `isCurrently` flag is accepted and not read. */
  function FormatDateRange(start: DateInput, end: DateInput, isCurrently: bool): string {
    FormatDate(start) + " - " + (if end.Absent? then "Present" else FormatDate(end))
  }

  /** The range says `Present` exactly when the end is empty, whatever the
      flag says. */
  lemma RangePresentIff(start: DateInput, end: DateInput, isCurrently: bool)
    ensures FormatDateRange(start, end, isCurrently) == FormatDate(start) + " - Present" <==> end.Absent?
    ensures FormatDateRange(start, end, isCurrently) == FormatDateRange(start, end, !isCurrently)
  {
    var head := FormatDate(start) + " - ";
    assert FormatDate(start) + " - Present" == head + "Present";
    if !end.Absent? {
      var e := FormatDate(end);
      assert e != "Present" by {
        if end.Valid? { assert e[2] == '/'; } else { assert e[0] == 'N'; }
      }
      assert (head + e)[|head|..] == e;
      assert (head + "Present")[|head|..] == "Present";
    }
  }

  const MonthNames: seq<string> := [
    "January", "February", "March", "April", "May", "June",
    "July", "August", "September", "October", "November", "December"
  ]

  /** The characters before the first non-digit. */
  function LeadingDigits(s: string): (r: string)
    ensures r <= s && forall i :: 0 <= i < |r| ==> IsDigit(r[i])
    ensures |r| < |s| ==> !IsDigit(s[|r|])
  {
    if s == [] || !IsDigit(s[0]) then [] else [s[0]] + LeadingDigits(s[1..])
  }

  /** `parseInt` in base 10 of an optional string, `None` standing for
      `NaN`: leading whitespace is skipped, then an optional `+`, then the
      longest run of digits, which must not be empty. */
  function ParseInt(o: Option<string>): Option<int> {
    if o.None? then None
    else
      var t := TrimStart(o.value);
      var u := if t != [] && t[0] == '+' then t[1..] else t;
      var digits := LeadingDigits(u);
      if digits == [] then None else Some(DigitsValue(digits))
  }

  /** `monthNames[k - 1]`, or `undefined` outside the list. */
  function MonthNameAt(k: Option<int>): string {
    if k.Some? && 1 <= k.value <= 12 then MonthNames[k.value - 1] else "undefined"
  }

  /** `getMonthYear`: empty for an empty string; otherwise the name of the
      month after the first `-`, a space and the text before it. */
  function GetMonthYear(s: string): string {
    if s == "" then ""
    else
      var parts := Split(s, '-');
      var month := if |parts| > 1 then Some(parts[1]) else None;
      MonthNameAt(ParseInt(month)) + " " + parts[0]
  }

  /** For a year text and a digit month, the month's English name comes
      first when it is 1..12, `undefined` otherwise. */
  lemma MonthYearOfDigits(year: string, digits: string)
    requires '-' !in year
    requires digits != [] && forall i :: 0 <= i < |digits| ==> IsDigit(digits[i])
    ensures GetMonthYear(year + "-" + digits) == MonthNameAt(Some(DigitsValue(digits))) + " " + year
  {
    var s := year + "-" + digits;
    assert |s| > 0;
    SplitAtDash(year, digits);
    MonthYearOfParts(s, year, digits);
  }

  lemma MonthYearOfParts(s: string, year: string, digits: string)
    requires s != "" && Split(s, '-') == [year, digits]
    requires digits != [] && forall i :: 0 <= i < |digits| ==> IsDigit(digits[i])
    ensures GetMonthYear(s) == MonthNameAt(Some(DigitsValue(digits))) + " " + year
  {
    ParseDigits(digits);
  }

  /** A dash-free year, a dash and digits split into those two pieces. */
  lemma SplitAtDash(year: string, digits: string)
    requires '-' !in year
    requires forall i :: 0 <= i < |digits| ==> IsDigit(digits[i])
    ensures Split(year + "-" + digits, '-') == [year, digits]
  {
    var parts := [year, digits];
    assert '-' !in digits by {
      forall i | 0 <= i < |digits| ensures digits[i] != '-' { assert IsDigit(digits[i]); }
    }
    assert forall i :: 0 <= i < |parts| ==> '-' !in parts[i];
    SplitJoin(parts, '-');
    assert parts[1..] == [digits];
    assert Join(parts, "-") == year + "-" + digits;
  }

  /** `parseInt` of a run of digits is its decimal value. */
  lemma ParseDigits(digits: string)
    requires digits != [] && forall i :: 0 <= i < |digits| ==> IsDigit(digits[i])
    ensures ParseInt(Some(digits)) == Some(DigitsValue(digits))
  {
    var c := digits[0];
    assert IsDigit(c);
    assert !IsWhitespace(c) && c != '+';
    assert TrimStart(digits) == digits;
    LeadingAllDigits(digits);
  }

  lemma {:induction false} LeadingAllDigits(s: string)
    requires forall i :: 0 <= i < |s| ==> IsDigit(s[i])
    ensures LeadingDigits(s) == s
  {
    if s != [] {
      assert forall i :: 0 <= i < |s| - 1 ==> s[1..][i] == s[i + 1];
      LeadingAllDigits(s[1..]);
    }
  }

  /** `YYYY-MM` with a two-digit month in range gives the month's name, a
      space and the year. */
  lemma MonthYearRoundTrip(year: string, m: Month)
    requires '-' !in year
    ensures GetMonthYear(year + "-" + Pad2(m)) == MonthNames[m - 1] + " " + year
  {
    MonthYearOfDigits(year, Pad2(m));
    Pad2Value(m);
  }

  /** An empty string gives an empty string; a text with no `-` has no
      month, which prints as `undefined`. */
  lemma MonthYearEdges(s: string)
    ensures GetMonthYear("") == ""
    ensures s != "" && '-' !in s ==> GetMonthYear(s) == "undefined " + s
  {
    if s != "" && '-' !in s {
      JoinSplit(s, '-');
      assert Count(s, '-') == 0 by { CountAbsent(s, '-'); }
      var parts := Split(s, '-');
      assert |parts| == 1 && Join(parts, "-") == parts[0];
    }
  }

  lemma {:induction false} CountAbsent(s: string, c: char)
    requires c !in s
    ensures Count(s, c) == 0
  {
    if s != [] {
      assert s[0] in s;
      assert forall x :: x in s[1..] ==> x in s;
      CountAbsent(s[1..], c);
    }
  }

  /** The months from the start of `a` to the start of `b`, counted on one
      line of months. */
  function MonthIndex(ym: YearMonth): int {
    ym.year * 12 + ym.month - 1
  }

  /** `calculateMonthsDuration` with the current month as a parameter:
      whole months from start to end, or to `now` when the work is
      current, never below 0; `None` (`NaN`) when a date is not valid. */
  function CalculateMonthsDuration(start: DateInput, end: DateInput, currentlyWorking: bool, now: YearMonth): Option<int> {
    var e := if currentlyWorking then Valid(now) else end;
    if !start.Valid? || !e.Valid? then None
    else
      var months := (e.date.year - start.date.year) * 12 + (e.date.month - start.date.month);
      Some(if months > 0 then months else 0)
  }

  /** The duration is the distance on the line of months, clamped at 0;
      it is 0 exactly when the end is not after the start. */
  lemma DurationIsDistance(start: YearMonth, end: YearMonth, now: YearMonth)
    ensures var r := CalculateMonthsDuration(Valid(start), Valid(end), false, now);
            && r.Some? && r.value >= 0
            && r.value == (if MonthIndex(end) > MonthIndex(start) then MonthIndex(end) - MonthIndex(start) else 0)
            && (r.value == 0 <==> MonthIndex(end) <= MonthIndex(start))
  {
  }

  /** Durations add up over consecutive periods. */
  lemma DurationAdds(a: YearMonth, b: YearMonth, c: YearMonth, now: YearMonth)
    requires MonthIndex(a) <= MonthIndex(b) <= MonthIndex(c)
    ensures CalculateMonthsDuration(Valid(a), Valid(c), false, now).value
         == CalculateMonthsDuration(Valid(a), Valid(b), false, now).value
          + CalculateMonthsDuration(Valid(b), Valid(c), false, now).value
  {
    DurationIsDistance(a, b, now);
    DurationIsDistance(b, c, now);
    DurationIsDistance(a, c, now);
  }

  /** Current work is measured to `now`, whatever the end date; a missing
      or unreadable date gives `NaN`. */
  lemma DurationCurrentAndInvalid(start: DateInput, end: DateInput, now: YearMonth)
    ensures CalculateMonthsDuration(start, end, true, now) == CalculateMonthsDuration(start, Valid(now), false, now)
    ensures !start.Valid? ==> CalculateMonthsDuration(start, end, false, now).None?
    ensures !end.Valid? ==> CalculateMonthsDuration(start, end, false, now).None?
  {
  }
}
