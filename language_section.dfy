/** The languages editor: languages keyed by id, each with a proficiency. */
module LanguageSection {
  import opened Seqs
  import opened Strings
  import opened CvTypes
  import IdLists

  /** A change made in the form of one entry: the field, named by its key
      in the record, and its new value. */
  datatype Edit =
    | Name(text: string)
    | ProficiencyLevel(proficiency: Proficiency)

  /** The key `handleUpdate` receives as `field`. */
  function Key(e: Edit): string {
    match e
    case Name(_) => "name"
    case ProficiencyLevel(_) => "proficiency"
  }

  /** The field of `x` that `e` names holds `e`'s value. */
  predicate Holds(x: Language, e: Edit) {
    match e
    case Name(v) => x.name == v
    case ProficiencyLevel(v) => x.proficiency == v
  }

  /** `{ ...x, [field]: value }`: the named field takes the value and no
      other field changes. */
  function Apply(x: Language, e: Edit): (r: Language)
    ensures r.id == x.id && Holds(r, e)
    ensures forall f :: Key(f) != Key(e) ==> (Holds(r, f) <==> Holds(x, f))
  {
    match e
    case Name(v) => x.(name := v)
    case ProficiencyLevel(v) => x.(proficiency := v)
  }

  function IdOf(x: Language): string {
    x.id
  }

  /** The id of an entry created at time `now` (`Date.now()`). */
  function NewId(now: nat): string {
    "lang-" + NatToString(now)
  }

  /** The entry the add button creates: an empty name and proficiency `professional`. */
  function Blank(now: nat): Language {
    Language(NewId(now), "", Professional)
  }

  /** The add handler: one blank entry appended, the others untouched. */
  function Add(xs: seq<Language>, now: nat): (r: seq<Language>)
    ensures |r| == |xs| + 1 && r[..|xs|] == xs && r[|xs|] == Blank(now)
  {
    xs + [Blank(now)]
  }

  /** The remove handler: every entry with the id goes, the rest keep their
      order. */
  function Remove(xs: seq<Language>, id: string): (r: seq<Language>)
    ensures forall x :: x in r <==> x in xs && x.id != id
    ensures IsSubsequence(r, xs)
  {
    IdLists.RemoveById(xs, id, IdOf)
  }

  /** The update handler: entries with the id get the edit, the others and
      the length stay. */
  function Update(xs: seq<Language>, id: string, e: Edit): (r: seq<Language>)
    ensures |r| == |xs|
    ensures forall i :: 0 <= i < |xs| ==> r[i].id == xs[i].id
    ensures forall i :: 0 <= i < |xs| ==> r[i] == if xs[i].id == id then Apply(xs[i], e) else xs[i]
  {
    IdLists.UpdateById(xs, id, IdOf, (x: Language) => Apply(x, e))
  }

  /** Removing the id an add just created undoes the add, when that id was
      not in use. */
  lemma AddThenRemove(xs: seq<Language>, now: nat)
    requires forall x :: x in xs ==> x.id != NewId(now)
    ensures Remove(Add(xs, now), NewId(now)) == xs
  {
    IdLists.AppendThenRemove(xs, Blank(now), IdOf);
  }

  /** Two updates of the same field of the same entry: the second wins. */
  lemma UpdateTwice(xs: seq<Language>, id: string, e1: Edit, e2: Edit)
    requires Key(e1) == Key(e2)
    ensures Update(Update(xs, id, e1), id, e2) == Update(xs, id, e2)
  {
    IdLists.UpdateOverwrite(xs, id, IdOf, (x: Language) => Apply(x, e1), (x: Language) => Apply(x, e2));
  }

  /** Updates of different fields commute. */
  lemma UpdatesCommute(x: Language, e1: Edit, e2: Edit)
    requires Key(e1) != Key(e2)
    ensures Apply(Apply(x, e1), e2) == Apply(Apply(x, e2), e1)
  {
  }

  /** The proficiency choices the form offers, in menu order. */
  const ProficiencyLevels: seq<Proficiency> := [Elementary, Limited, Professional, Fluent, Native]

  /** Every proficiency is offered exactly once, under the five names the
      document stores. */
  lemma ProficiencyLevelsExact()
    ensures forall p :: p in ProficiencyLevels
    ensures Distinct(ProficiencyLevels)
    ensures Map(ProficiencyLevels, ProficiencyName) == ["elementary", "limited", "professional", "fluent", "native"]
  {
    forall p ensures p in ProficiencyLevels {
      match p
      case Elementary => assert ProficiencyLevels[0] == p;
      case Limited => assert ProficiencyLevels[1] == p;
      case Professional => assert ProficiencyLevels[2] == p;
      case Fluent => assert ProficiencyLevels[3] == p;
      case Native => assert ProficiencyLevels[4] == p;
    }
  }

  /** The label of a choice: its name with the first letter upper-cased. */
  function ProficiencyLabel(p: Proficiency): (r: string)
    ensures |r| == |ProficiencyName(p)| && r[0] == UpperChar(ProficiencyName(p)[0])
    ensures r[1..] == ProficiencyName(p)[1..]
  {
    Capitalize(ProficiencyName(p))
  }
}
