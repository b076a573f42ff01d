/** The projects editor: a list of projects keyed by id, reorderable by one step. */
module ProjectsSection {
  import opened Seqs
  import opened Strings
  import opened CvTypes
  import IdLists

  /** A change made in the form of one entry: the field, named by its key
      in the record, and its new value. */
  datatype Edit =
    | Title(text: string)
    | Description(text: string)
    | StartDate(text: string)
    | EndDate(text: string)
    | Technologies(list: seq<string>)
    | Link(text: string)

  /** The key `handleUpdate` receives as `field`. */
  function Key(e: Edit): string {
    match e
    case Title(_) => "title"
    case Description(_) => "description"
    case StartDate(_) => "startDate"
    case EndDate(_) => "endDate"
    case Technologies(_) => "technologies"
    case Link(_) => "link"
  }

  /** The field of `x` that `e` names holds `e`'s value. */
  predicate Holds(x: Project, e: Edit) {
    match e
    case Title(v) => x.title == v
    case Description(v) => x.description == v
    case StartDate(v) => x.startDate == v
    case EndDate(v) => x.endDate == v
    case Technologies(v) => x.technologies == v
    case Link(v) => x.link == v
  }

  /** `{ ...x, [field]: value }`: the named field takes the value and no
      other field changes. */
  function Apply(x: Project, e: Edit): (r: Project)
    ensures r.id == x.id && Holds(r, e)
    ensures forall f :: Key(f) != Key(e) ==> (Holds(r, f) <==> Holds(x, f))
  {
    match e
    case Title(v) => x.(title := v)
    case Description(v) => x.(description := v)
    case StartDate(v) => x.(startDate := v)
    case EndDate(v) => x.(endDate := v)
    case Technologies(v) => x.(technologies := v)
    case Link(v) => x.(link := v)
  }

  function IdOf(x: Project): string {
    x.id
  }

  /** The id of an entry created at time `now` (`Date.now()`). */
  function NewId(now: nat): string {
    "proj-" + NatToString(now)
  }

  /** The entry the add button creates: every text field empty and no technologies. */
  function Blank(now: nat): Project {
    Project(NewId(now), "", "", "", "", [], "", "")
  }

  /** The add handler: one blank entry appended, the others untouched. */
  function Add(xs: seq<Project>, now: nat): (r: seq<Project>)
    ensures |r| == |xs| + 1 && r[..|xs|] == xs && r[|xs|] == Blank(now)
  {
    xs + [Blank(now)]
  }

  /** The remove handler: every entry with the id goes, the rest keep their
      order. */
  function Remove(xs: seq<Project>, id: string): (r: seq<Project>)
    ensures forall x :: x in r <==> x in xs && x.id != id
    ensures IsSubsequence(r, xs)
  {
    IdLists.RemoveById(xs, id, IdOf)
  }

  /** The update handler: entries with the id get the edit, the others and
      the length stay. */
  function Update(xs: seq<Project>, id: string, e: Edit): (r: seq<Project>)
    ensures |r| == |xs|
    ensures forall i :: 0 <= i < |xs| ==> r[i].id == xs[i].id
    ensures forall i :: 0 <= i < |xs| ==> r[i] == if xs[i].id == id then Apply(xs[i], e) else xs[i]
  {
    IdLists.UpdateById(xs, id, IdOf, (x: Project) => Apply(x, e))
  }

  /** Removing the id an add just created undoes the add, when that id was
      not in use. */
  lemma AddThenRemove(xs: seq<Project>, now: nat)
    requires forall x :: x in xs ==> x.id != NewId(now)
    ensures Remove(Add(xs, now), NewId(now)) == xs
  {
    IdLists.AppendThenRemove(xs, Blank(now), IdOf);
  }

  /** Two updates of the same field of the same entry: the second wins. */
  lemma UpdateTwice(xs: seq<Project>, id: string, e1: Edit, e2: Edit)
    requires Key(e1) == Key(e2)
    ensures Update(Update(xs, id, e1), id, e2) == Update(xs, id, e2)
  {
    IdLists.UpdateOverwrite(xs, id, IdOf, (x: Project) => Apply(x, e1), (x: Project) => Apply(x, e2));
  }

  /** Updates of different fields commute. */
  lemma UpdatesCommute(x: Project, e1: Edit, e2: Edit)
    requires Key(e1) != Key(e2)
    ensures Apply(Apply(x, e1), e2) == Apply(Apply(x, e2), e1)
  {
  }

  /** What the technologies box stores: the input split on `','`, each
      piece trimmed. */
  function ParseTechnologies(input: string): (r: seq<string>)
    ensures |r| == Count(input, ',') + 1
    ensures forall i :: 0 <= i < |r| ==> ',' !in r[i] && Trimmed(r[i])
  {
    var pieces := Split(input, ',');
    var r := Map(pieces, Trim);
    forall i | 0 <= i < |r| ensures ',' !in r[i] && Trimmed(r[i]) {
      TrimmedPiece(pieces[i]);
    }
    r
  }

  /** The trim of a string without commas has no comma and is trimmed. */
  lemma {:induction false} TrimmedPiece(s: string)
    requires ',' !in s
    ensures ',' !in Trim(s) && Trimmed(Trim(s))
  {
    var t := TrimStart(s);
    assert forall c :: c in TrimEnd(t) ==> c in t;
    assert forall c :: c in t ==> c in s;
  }

  /** What the technologies box shows: the list joined with `", "`. */
  function ShowTechnologies(ts: seq<string>): string {
    Join(ts, ", ")
  }

  /** The pieces `", "`-joined text splits into at `','`: every entry but
      the first keeps the space that followed the comma. */
  function Padded(ts: seq<string>): (r: seq<string>)
    requires |ts| > 0
    ensures |r| == |ts| && r[0] == ts[0]
    ensures forall i :: 0 < i < |ts| ==> r[i] == " " + ts[i]
  {
    [ts[0]] + Map(ts[1..], (t: string) => " " + t)
  }

  /** Re-reading the shown text gives the list back when no technology
      holds a comma or surrounding whitespace. */
  lemma {:induction false} TechnologiesRoundTrip(ts: seq<string>)
    requires |ts| > 0
    requires forall i :: 0 <= i < |ts| ==> ',' !in ts[i] && Trimmed(ts[i])
    ensures ParseTechnologies(ShowTechnologies(ts)) == ts
  {
    SplitShown(ts);
    var padded := Padded(ts);
    var r := ParseTechnologies(ShowTechnologies(ts));
    assert r == Map(padded, Trim);
    forall i | 0 <= i < |ts| ensures r[i] == ts[i] {
      if i == 0 {
        TrimFixed(ts[0]);
      } else {
        TrimPadded(" ", ts[i]);
      }
    }
  }

  /** Splitting the shown text at `','` gives the padded list. */
  lemma {:induction false} SplitShown(ts: seq<string>)
    requires |ts| > 0
    requires forall i :: 0 <= i < |ts| ==> ',' !in ts[i]
    ensures Split(ShowTechnologies(ts), ',') == Padded(ts)
  {
    JoinPadded(ts);
    var padded := Padded(ts);
    forall i | 0 <= i < |padded| ensures ',' !in padded[i] {
      if i > 0 {
        assert padded[i] == " " + ts[i];
      }
    }
    SplitJoin(padded, ',');
  }

  /** An empty list shows as "" and so reads back as one empty
      technology. */
  lemma EmptyTechnologiesReadBack()
    ensures ParseTechnologies(ShowTechnologies([])) == [""]
  {
    assert Trim("") == "";
  }

  /** Joining with `", "` is joining the padded list with `','`. */
  lemma {:induction false} JoinPadded(ts: seq<string>)
    requires |ts| > 0
    ensures Join(ts, ", ") == Join(Padded(ts), [','])
    decreases |ts|
  {
    if |ts| > 1 {
      var padded := Padded(ts);
      var tail := Padded(ts[1..]);
      JoinPadded(ts[1..]);
      assert padded[1..] == [" " + tail[0]] + tail[1..] by {
        assert |tail| == |ts| - 1;
        forall k | 0 <= k < |ts| - 1 ensures padded[1..][k] == ([" " + tail[0]] + tail[1..])[k] {
          if k > 0 {
            assert tail[k] == " " + ts[1..][k];
          }
        }
      }
      JoinPrefixFirst(tail, " ");
      assert Join(ts, ", ") == ts[0] + ", " + Join(ts[1..], ", ");
      assert Join(padded, [',']) == ts[0] + [','] + Join(padded[1..], [',']);
    }
  }

  /** A prefix on the first part is a prefix on the joined string. */
  lemma {:induction false} JoinPrefixFirst(parts: seq<string>, pre: string)
    requires |parts| > 0
    ensures Join([pre + parts[0]] + parts[1..], [',']) == pre + Join(parts, [','])
  {
    var q := [pre + parts[0]] + parts[1..];
    if |parts| > 1 {
      assert q[1..] == parts[1..];
      assert Join(q, [',']) == pre + parts[0] + [','] + Join(parts[1..], [',']);
      assert Join(parts, [',']) == parts[0] + [','] + Join(parts[1..], [',']);
    }
  }
}
