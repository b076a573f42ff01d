/** The volunteering editor: a list of roles keyed by id, reorderable by one step. */
module VolunteeringSection {
  import opened Seqs
  import opened Strings
  import opened CvTypes
  import IdLists

  /** A change made in the form of one entry: the field, named by its key
      in the record, and its new value. */
  datatype Edit =
    | Role(text: string)
    | Organization(text: string)
    | Location(text: string)
    | StartDate(text: string)
    | EndDate(text: string)
    | CurrentlyVolunteering(flag: bool)
    | Description(text: string)

  /** The key `handleUpdate` receives as `field`. */
  function Key(e: Edit): string {
    match e
    case Role(_) => "role"
    case Organization(_) => "organization"
    case Location(_) => "location"
    case StartDate(_) => "startDate"
    case EndDate(_) => "endDate"
    case CurrentlyVolunteering(_) => "currentlyVolunteering"
    case Description(_) => "description"
  }

  /** The field of `x` that `e` names holds `e`'s value. */
  predicate Holds(x: Volunteering, e: Edit) {
    match e
    case Role(v) => x.role == v
    case Organization(v) => x.organization == v
    case Location(v) => x.location == v
    case StartDate(v) => x.startDate == v
    case EndDate(v) => x.endDate == v
    case CurrentlyVolunteering(v) => x.currentlyVolunteering == v
    case Description(v) => x.description == v
  }

  /** `{ ...x, [field]: value }`: the named field takes the value and no
      other field changes. */
  function Apply(x: Volunteering, e: Edit): (r: Volunteering)
    ensures r.id == x.id && Holds(r, e)
    ensures forall f :: Key(f) != Key(e) ==> (Holds(r, f) <==> Holds(x, f))
  {
    match e
    case Role(v) => x.(role := v)
    case Organization(v) => x.(organization := v)
    case Location(v) => x.(location := v)
    case StartDate(v) => x.(startDate := v)
    case EndDate(v) => x.(endDate := v)
    case CurrentlyVolunteering(v) => x.(currentlyVolunteering := v)
    case Description(v) => x.(description := v)
  }

  function IdOf(x: Volunteering): string {
    x.id
  }

  /** The id of an entry created at time `now` (`Date.now()`). */
  function NewId(now: nat): string {
    "vol-" + NatToString(now)
  }

  /** The entry the add button creates: every text field empty and `currentlyVolunteering` false. */
  function Blank(now: nat): Volunteering {
    Volunteering(NewId(now), "", "", "", "", false, "", "")
  }

  /** The add handler: one blank entry appended, the others untouched. */
  function Add(xs: seq<Volunteering>, now: nat): (r: seq<Volunteering>)
    ensures |r| == |xs| + 1 && r[..|xs|] == xs && r[|xs|] == Blank(now)
  {
    xs + [Blank(now)]
  }

  /** The remove handler: every entry with the id goes, the rest keep their
      order. */
  function Remove(xs: seq<Volunteering>, id: string): (r: seq<Volunteering>)
    ensures forall x :: x in r <==> x in xs && x.id != id
    ensures IsSubsequence(r, xs)
  {
    IdLists.RemoveById(xs, id, IdOf)
  }

  /** The update handler: entries with the id get the edit, the others and
      the length stay. */
  function Update(xs: seq<Volunteering>, id: string, e: Edit): (r: seq<Volunteering>)
    ensures |r| == |xs|
    ensures forall i :: 0 <= i < |xs| ==> r[i].id == xs[i].id
    ensures forall i :: 0 <= i < |xs| ==> r[i] == if xs[i].id == id then Apply(xs[i], e) else xs[i]
  {
    IdLists.UpdateById(xs, id, IdOf, (x: Volunteering) => Apply(x, e))
  }

  /** Removing the id an add just created undoes the add, when that id was
      not in use. */
  lemma AddThenRemove(xs: seq<Volunteering>, now: nat)
    requires forall x :: x in xs ==> x.id != NewId(now)
    ensures Remove(Add(xs, now), NewId(now)) == xs
  {
    IdLists.AppendThenRemove(xs, Blank(now), IdOf);
  }

  /** Two updates of the same field of the same entry: the second wins. */
  lemma UpdateTwice(xs: seq<Volunteering>, id: string, e1: Edit, e2: Edit)
    requires Key(e1) == Key(e2)
    ensures Update(Update(xs, id, e1), id, e2) == Update(xs, id, e2)
  {
    IdLists.UpdateOverwrite(xs, id, IdOf, (x: Volunteering) => Apply(x, e1), (x: Volunteering) => Apply(x, e2));
  }

  /** Updates of different fields commute. */
  lemma UpdatesCommute(x: Volunteering, e1: Edit, e2: Edit)
    requires Key(e1) != Key(e2)
    ensures Apply(Apply(x, e1), e2) == Apply(Apply(x, e2), e1)
  {
  }
}
