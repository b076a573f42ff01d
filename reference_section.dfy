/** The references editor: a list of referees keyed by id. */
module ReferenceSection {
  import opened Seqs
  import opened Strings
  import opened CvTypes
  import IdLists

  /** A change made in the form of one entry: the field, named by its key
      in the record, and its new value. */
  datatype Edit =
    | Name(text: string)
    | Position(text: string)
    | Company(text: string)
    | Email(text: string)
    | Phone(text: string)
    | Relationship(text: string)

  /** The key `handleUpdate` receives as `field`. */
  function Key(e: Edit): string {
    match e
    case Name(_) => "name"
    case Position(_) => "position"
    case Company(_) => "company"
    case Email(_) => "email"
    case Phone(_) => "phone"
    case Relationship(_) => "relationship"
  }

  /** The field of `x` that `e` names holds `e`'s value. */
  predicate Holds(x: Reference, e: Edit) {
    match e
    case Name(v) => x.name == v
    case Position(v) => x.position == v
    case Company(v) => x.company == v
    case Email(v) => x.email == v
    case Phone(v) => x.phone == v
    case Relationship(v) => x.relationship == v
  }

  /** `{ ...x, [field]: value }`: the named field takes the value and no
      other field changes. */
  function Apply(x: Reference, e: Edit): (r: Reference)
    ensures r.id == x.id && Holds(r, e)
    ensures forall f :: Key(f) != Key(e) ==> (Holds(r, f) <==> Holds(x, f))
  {
    match e
    case Name(v) => x.(name := v)
    case Position(v) => x.(position := v)
    case Company(v) => x.(company := v)
    case Email(v) => x.(email := v)
    case Phone(v) => x.(phone := v)
    case Relationship(v) => x.(relationship := v)
  }

  function IdOf(x: Reference): string {
    x.id
  }

  /** The id of an entry created at time `now` (`Date.now()`). */
  function NewId(now: nat): string {
    "ref-" + NatToString(now)
  }

  /** The entry the add button creates: every field empty. */
  function Blank(now: nat): Reference {
    Reference(NewId(now), "", "", "", "", "", "")
  }

  /** The add handler: one blank entry appended, the others untouched. */
  function Add(xs: seq<Reference>, now: nat): (r: seq<Reference>)
    ensures |r| == |xs| + 1 && r[..|xs|] == xs && r[|xs|] == Blank(now)
  {
    xs + [Blank(now)]
  }

  /** The remove handler: every entry with the id goes, the rest keep their
      order. */
  function Remove(xs: seq<Reference>, id: string): (r: seq<Reference>)
    ensures forall x :: x in r <==> x in xs && x.id != id
    ensures IsSubsequence(r, xs)
  {
    IdLists.RemoveById(xs, id, IdOf)
  }

  /** The update handler: entries with the id get the edit, the others and
      the length stay. */
  function Update(xs: seq<Reference>, id: string, e: Edit): (r: seq<Reference>)
    ensures |r| == |xs|
    ensures forall i :: 0 <= i < |xs| ==> r[i].id == xs[i].id
    ensures forall i :: 0 <= i < |xs| ==> r[i] == if xs[i].id == id then Apply(xs[i], e) else xs[i]
  {
    IdLists.UpdateById(xs, id, IdOf, (x: Reference) => Apply(x, e))
  }

  /** Removing the id an add just created undoes the add, when that id was
      not in use. */
  lemma AddThenRemove(xs: seq<Reference>, now: nat)
    requires forall x :: x in xs ==> x.id != NewId(now)
    ensures Remove(Add(xs, now), NewId(now)) == xs
  {
    IdLists.AppendThenRemove(xs, Blank(now), IdOf);
  }

  /** Two updates of the same field of the same entry: the second wins. */
  lemma UpdateTwice(xs: seq<Reference>, id: string, e1: Edit, e2: Edit)
    requires Key(e1) == Key(e2)
    ensures Update(Update(xs, id, e1), id, e2) == Update(xs, id, e2)
  {
    IdLists.UpdateOverwrite(xs, id, IdOf, (x: Reference) => Apply(x, e1), (x: Reference) => Apply(x, e2));
  }

  /** Updates of different fields commute. */
  lemma UpdatesCommute(x: Reference, e1: Edit, e2: Edit)
    requires Key(e1) != Key(e2)
    ensures Apply(Apply(x, e1), e2) == Apply(Apply(x, e2), e1)
  {
  }
}
