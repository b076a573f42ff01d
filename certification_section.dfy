/** The certifications editor: certifications keyed by id, displayed most recent first. */
module CertificationSection {
  import opened Wrappers
  import opened Seqs
  import opened Sorting
  import opened Strings
  import opened CvTypes
  import IdLists

  /** A change made in the form of one entry: the field, named by its key
      in the record, and its new value. */
  datatype Edit =
    | Name(text: string)
    | Issuer(text: string)
    | IssueDate(text: string)
    | ExpiryDate(text: string)
    | CredentialId(text: string)
    | CredentialUrl(text: string)

  /** The key `handleUpdate` receives as `field`. */
  function Key(e: Edit): string {
    match e
    case Name(_) => "name"
    case Issuer(_) => "issuer"
    case IssueDate(_) => "issueDate"
    case ExpiryDate(_) => "expiryDate"
    case CredentialId(_) => "credentialId"
    case CredentialUrl(_) => "credentialUrl"
  }

  /** The field of `x` that `e` names holds `e`'s value. */
  predicate Holds(x: Certification, e: Edit) {
    match e
    case Name(v) => x.name == v
    case Issuer(v) => x.issuer == v
    case IssueDate(v) => x.issueDate == v
    case ExpiryDate(v) => x.expiryDate == v
    case CredentialId(v) => x.credentialId == v
    case CredentialUrl(v) => x.credentialUrl == v
  }

  /** `{ ...x, [field]: value }`: the named field takes the value and no
      other field changes. */
  function Apply(x: Certification, e: Edit): (r: Certification)
    ensures r.id == x.id && Holds(r, e)
    ensures forall f :: Key(f) != Key(e) ==> (Holds(r, f) <==> Holds(x, f))
  {
    match e
    case Name(v) => x.(name := v)
    case Issuer(v) => x.(issuer := v)
    case IssueDate(v) => x.(issueDate := v)
    case ExpiryDate(v) => x.(expiryDate := v)
    case CredentialId(v) => x.(credentialId := v)
    case CredentialUrl(v) => x.(credentialUrl := v)
  }

  function IdOf(x: Certification): string {
    x.id
  }

  /** The id of an entry created at time `now` (`Date.now()`). */
  function NewId(now: nat): string {
    "cert-" + NatToString(now)
  }

  /** The entry the add button creates: every field empty. */
  function Blank(now: nat): Certification {
    Certification(NewId(now), "", "", "", "", "", "")
  }

  /** The add handler: one blank entry appended, the others untouched. */
  function Add(xs: seq<Certification>, now: nat): (r: seq<Certification>)
    ensures |r| == |xs| + 1 && r[..|xs|] == xs && r[|xs|] == Blank(now)
  {
    xs + [Blank(now)]
  }

  /** The remove handler: every entry with the id goes, the rest keep their
      order. */
  function Remove(xs: seq<Certification>, id: string): (r: seq<Certification>)
    ensures forall x :: x in r <==> x in xs && x.id != id
    ensures IsSubsequence(r, xs)
  {
    IdLists.RemoveById(xs, id, IdOf)
  }

  /** The update handler: entries with the id get the edit, the others and
      the length stay. */
  function Update(xs: seq<Certification>, id: string, e: Edit): (r: seq<Certification>)
    ensures |r| == |xs|
    ensures forall i :: 0 <= i < |xs| ==> r[i].id == xs[i].id
    ensures forall i :: 0 <= i < |xs| ==> r[i] == if xs[i].id == id then Apply(xs[i], e) else xs[i]
  {
    IdLists.UpdateById(xs, id, IdOf, (x: Certification) => Apply(x, e))
  }

  /** Removing the id an add just created undoes the add, when that id was
      not in use. */
  lemma AddThenRemove(xs: seq<Certification>, now: nat)
    requires forall x :: x in xs ==> x.id != NewId(now)
    ensures Remove(Add(xs, now), NewId(now)) == xs
  {
    IdLists.AppendThenRemove(xs, Blank(now), IdOf);
  }

  /** Two updates of the same field of the same entry: the second wins. */
  lemma UpdateTwice(xs: seq<Certification>, id: string, e1: Edit, e2: Edit)
    requires Key(e1) == Key(e2)
    ensures Update(Update(xs, id, e1), id, e2) == Update(xs, id, e2)
  {
    IdLists.UpdateOverwrite(xs, id, IdOf, (x: Certification) => Apply(x, e1), (x: Certification) => Apply(x, e2));
  }

  /** Updates of different fields commute. */
  lemma UpdatesCommute(x: Certification, e1: Edit, e2: Edit)
    requires Key(e1) != Key(e2)
    ensures Apply(Apply(x, e1), e2) == Apply(Apply(x, e2), e1)
  {
  }

  /** The month a `<input type="month">` value `YYYY-MM` names, counted
      from January of year 0; `None` for every other string, for which
      the model takes `new Date(...)` to be an invalid date. */
  function MonthIndex(s: string): (r: Option<int>)
    ensures r.Some? <==> MonthInput(s)
    ensures r.Some? ==> r.value == DigitsValue(s[..4]) * 12 + DigitsValue(s[5..]) - 1
  {
    if MonthInput(s) then Some(DigitsValue(s[..4]) * 12 + DigitsValue(s[5..]) - 1) else None
  }

  /** Four digits, a dash, and two digits naming a month from 01 to 12. */
  predicate MonthInput(s: string) {
    && |s| == 7 && s[4] == '-'
    && (forall i :: 0 <= i < 4 ==> IsDigit(s[i]))
    && IsDigit(s[5]) && IsDigit(s[6])
    && (assert forall i :: 0 <= i < |s[..4]| ==> s[..4][i] == s[i];
        assert s[5..] == [s[5], s[6]];
        1 <= DigitsValue(s[5..]) <= 12)
  }

  /** The display comparator: 0 when either issue date is empty; otherwise
      the later date first, where a date that does not parse makes the
      difference `NaN`, which `sort` reads as 0. Months stand in for the
      milliseconds of `getTime`, which order the same way. */
  function CertCmp(a: Certification, b: Certification): (r: int)
    ensures a.issueDate == "" || b.issueDate == "" ==> r == 0
    ensures r < 0 <==> MonthInput(a.issueDate) && MonthInput(b.issueDate)
                       && MonthIndex(a.issueDate).value > MonthIndex(b.issueDate).value
  {
    if a.issueDate == "" || b.issueDate == "" then 0
    else
      match (MonthIndex(a.issueDate), MonthIndex(b.issueDate))
      case (Some(x), Some(y)) => y - x
      case _ => 0
  }

  /** `[...certifications].sort(CertCmp)`: a sorted copy for display; the
      stored list, which add, remove and update work on, is the argument
      and stays as it is. */
  function SortedForDisplay(certs: seq<Certification>): (r: seq<Certification>)
    ensures |r| == |certs| && multiset(r) == multiset(certs)
  {
    SortBy(certs, CertCmp)
  }

  /** Swapping the arguments negates the comparison. */
  lemma CertCmpAntisymmetric(a: Certification, b: Certification)
    ensures CertCmp(a, b) == -CertCmp(b, a)
  {
  }

  /** The month of the issue date; 0 for a date that does not parse. */
  function IssueMonth(c: Certification): int {
    MonthIndex(c.issueDate).GetOr(0)
  }

  /** The sort key: the issue month negated, so that ascending keys put the
      most recent first. */
  function Recency(c: Certification): int {
    -IssueMonth(c)
  }

  lemma {:induction false} DatedKeyed(certs: seq<Certification>)
    requires forall c :: c in certs ==> MonthInput(c.issueDate)
    ensures KeyedOn(certs, CertCmp, Recency)
  {
    forall a, b | a in certs && b in certs ensures CertCmp(a, b) == Recency(a) - Recency(b) {
      assert a.issueDate != "" && b.issueDate != "";
    }
  }

  /** When every issue date parses, the display runs from the most recent
      issue date to the oldest. */
  lemma {:induction false} DisplayNewestFirst(certs: seq<Certification>)
    requires forall c :: c in certs ==> MonthInput(c.issueDate)
    ensures forall i, j :: 0 <= i < j < |certs| ==>
              IssueMonth(SortedForDisplay(certs)[i]) >= IssueMonth(SortedForDisplay(certs)[j])
  {
    DatedKeyed(certs);
    SortByKeySorted(certs, CertCmp, Recency);
    var r := SortedForDisplay(certs);
    forall i, j | 0 <= i < j < |certs|
      ensures IssueMonth(r[i]) >= IssueMonth(r[j])
    {
      assert r[i] in multiset(certs) && r[j] in multiset(certs);
      assert Recency(r[i]) <= Recency(r[j]);
    }
  }

  /** When every issue date parses, certifications issued in the same month
      keep their stored order. */
  lemma {:induction false} DisplayStable(certs: seq<Certification>, month: string)
    requires forall c :: c in certs ==> MonthInput(c.issueDate)
    ensures Filter(SortedForDisplay(certs), (c: Certification) => c.issueDate == month)
         == Filter(certs, (c: Certification) => c.issueDate == month)
  {
    DatedKeyed(certs);
    SortByStable(certs, CertCmp, Recency, (c: Certification) => c.issueDate == month);
  }

  /** When no issue date parses, every comparison is 0 and the display is
      the stored order. */
  lemma {:induction false} DisplayUndated(certs: seq<Certification>)
    requires forall c :: c in certs ==> !MonthInput(c.issueDate)
    ensures SortedForDisplay(certs) == certs
  {
    var zero := (c: Certification) => 0;
    assert KeyedOn(certs, CertCmp, zero);
    SortByIdentity(certs, CertCmp, zero);
  }
}
