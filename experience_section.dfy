/** The work-experience editor: a list of jobs keyed by id. */
module ExperienceSection {
  import opened Seqs
  import opened Strings
  import opened CvTypes
  import IdLists

  /** A change made in the form of one entry: the field, named by its key
      in the record, and its new value. */
  datatype Edit =
    | JobTitle(text: string)
    | Company(text: string)
    | Location(text: string)
    | StartDate(text: string)
    | EndDate(text: string)
    | CurrentlyWorking(flag: bool)
    | Description(text: string)

  /** The key `handleUpdate` receives as `field`. */
  function Key(e: Edit): string {
    match e
    case JobTitle(_) => "jobTitle"
    case Company(_) => "company"
    case Location(_) => "location"
    case StartDate(_) => "startDate"
    case EndDate(_) => "endDate"
    case CurrentlyWorking(_) => "currentlyWorking"
    case Description(_) => "description"
  }

  /** The field of `x` that `e` names holds `e`'s value. */
  predicate Holds(x: Experience, e: Edit) {
    match e
    case JobTitle(v) => x.jobTitle == v
    case Company(v) => x.company == v
    case Location(v) => x.location == v
    case StartDate(v) => x.startDate == v
    case EndDate(v) => x.endDate == v
    case CurrentlyWorking(v) => x.currentlyWorking == v
    case Description(v) => x.description == v
  }

  /** `{ ...x, [field]: value }`: the named field takes the value and no
      other field changes. */
  function Apply(x: Experience, e: Edit): (r: Experience)
    ensures r.id == x.id && Holds(r, e)
    ensures forall f :: Key(f) != Key(e) ==> (Holds(r, f) <==> Holds(x, f))
  {
    match e
    case JobTitle(v) => x.(jobTitle := v)
    case Company(v) => x.(company := v)
    case Location(v) => x.(location := v)
    case StartDate(v) => x.(startDate := v)
    case EndDate(v) => x.(endDate := v)
    case CurrentlyWorking(v) => x.(currentlyWorking := v)
    case Description(v) => x.(description := v)
  }

  function IdOf(x: Experience): string {
    x.id
  }

  /** The id of an entry created at time `now` (`Date.now()`). */
  function NewId(now: nat): string {
    "exp-" + NatToString(now)
  }

  /** The entry the add button creates: every text field empty and `currentlyWorking` false. */
  function Blank(now: nat): Experience {
    Experience(NewId(now), "", "", "", "", false, "", "")
  }

  /** The add handler: one blank entry appended, the others untouched. */
  function Add(xs: seq<Experience>, now: nat): (r: seq<Experience>)
    ensures |r| == |xs| + 1 && r[..|xs|] == xs && r[|xs|] == Blank(now)
  {
    xs + [Blank(now)]
  }

  /** The remove handler: every entry with the id goes, the rest keep their
      order. */
  function Remove(xs: seq<Experience>, id: string): (r: seq<Experience>)
    ensures forall x :: x in r <==> x in xs && x.id != id
    ensures IsSubsequence(r, xs)
  {
    IdLists.RemoveById(xs, id, IdOf)
  }

  /** The update handler: entries with the id get the edit, the others and
      the length stay. */
  function Update(xs: seq<Experience>, id: string, e: Edit): (r: seq<Experience>)
    ensures |r| == |xs|
    ensures forall i :: 0 <= i < |xs| ==> r[i].id == xs[i].id
    ensures forall i :: 0 <= i < |xs| ==> r[i] == if xs[i].id == id then Apply(xs[i], e) else xs[i]
  {
    IdLists.UpdateById(xs, id, IdOf, (x: Experience) => Apply(x, e))
  }

  /** Removing the id an add just created undoes the add, when that id was
      not in use. */
  lemma AddThenRemove(xs: seq<Experience>, now: nat)
    requires forall x :: x in xs ==> x.id != NewId(now)
    ensures Remove(Add(xs, now), NewId(now)) == xs
  {
    IdLists.AppendThenRemove(xs, Blank(now), IdOf);
  }

  /** Two updates of the same field of the same entry: the second wins. */
  lemma UpdateTwice(xs: seq<Experience>, id: string, e1: Edit, e2: Edit)
    requires Key(e1) == Key(e2)
    ensures Update(Update(xs, id, e1), id, e2) == Update(xs, id, e2)
  {
    IdLists.UpdateOverwrite(xs, id, IdOf, (x: Experience) => Apply(x, e1), (x: Experience) => Apply(x, e2));
  }

  /** Updates of different fields commute. */
  lemma UpdatesCommute(x: Experience, e1: Edit, e2: Edit)
    requires Key(e1) != Key(e2)
    ensures Apply(Apply(x, e1), e2) == Apply(Apply(x, e2), e1)
  {
  }
}
