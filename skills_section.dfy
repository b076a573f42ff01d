/** The skills editor: skills keyed by id, shown grouped by category. */
module SkillsSection {
  import opened Seqs
  import opened Strings
  import opened Wrappers
  import opened Sorting
  import opened CvTypes
  import opened JsObjects
  import IdLists

  /** A change made in the form of one entry: the field, named by its key
      in the record, and its new value. */
  datatype Edit =
    | Name(text: string)
    | Level(level: SkillLevel)

  /** The key `handleUpdate` receives as `field`. */
  function Key(e: Edit): string {
    match e
    case Name(_) => "name"
    case Level(_) => "level"
  }

  /** The field of `x` that `e` names holds `e`'s value. */
  predicate Holds(x: Skill, e: Edit) {
    match e
    case Name(v) => x.name == v
    case Level(v) => x.level == v
  }

  /** `{ ...x, [field]: value }`: the named field takes the value and no
      other field changes. */
  function Apply(x: Skill, e: Edit): (r: Skill)
    ensures r.id == x.id && Holds(r, e)
    ensures forall f :: Key(f) != Key(e) ==> (Holds(r, f) <==> Holds(x, f))
  {
    match e
    case Name(v) => x.(name := v)
    case Level(v) => x.(level := v)
  }

  function IdOf(x: Skill): string {
    x.id
  }

  /** The id of an entry created at time `now` (`Date.now()`). */
  function NewId(now: nat): string {
    "skill-" + NatToString(now)
  }

  /** The remove handler: every entry with the id goes, the rest keep their
      order. */
  function Remove(xs: seq<Skill>, id: string): (r: seq<Skill>)
    ensures forall x :: x in r <==> x in xs && x.id != id
    ensures IsSubsequence(r, xs)
  {
    IdLists.RemoveById(xs, id, IdOf)
  }

  /** The update handler: entries with the id get the edit, the others and
      the length stay. */
  function Update(xs: seq<Skill>, id: string, e: Edit): (r: seq<Skill>)
    ensures |r| == |xs|
    ensures forall i :: 0 <= i < |xs| ==> r[i].id == xs[i].id
    ensures forall i :: 0 <= i < |xs| ==> r[i] == if xs[i].id == id then Apply(xs[i], e) else xs[i]
  {
    IdLists.UpdateById(xs, id, IdOf, (x: Skill) => Apply(x, e))
  }

  /** Two updates of the same field of the same entry: the second wins. */
  lemma UpdateTwice(xs: seq<Skill>, id: string, e1: Edit, e2: Edit)
    requires Key(e1) == Key(e2)
    ensures Update(Update(xs, id, e1), id, e2) == Update(xs, id, e2)
  {
    IdLists.UpdateOverwrite(xs, id, IdOf, (x: Skill) => Apply(x, e1), (x: Skill) => Apply(x, e2));
  }

  /** Updates of different fields commute. */
  lemma UpdatesCommute(x: Skill, e1: Edit, e2: Edit)
    requires Key(e1) != Key(e2)
    ensures Apply(Apply(x, e1), e2) == Apply(Apply(x, e2), e1)
  {
  }

  /** `SKILL_LEVELS`, the choices of the level menu: every level once. */
  const SkillLevels: seq<SkillLevel> := [Beginner, Intermediate, Advanced, Expert]

  lemma SkillLevelsExact()
    ensures forall l :: l in SkillLevels
    ensures Distinct(SkillLevels)
    ensures Map(SkillLevels, LevelName) == ["beginner", "intermediate", "advanced", "expert"]
  {
    forall l ensures l in SkillLevels {
      match l
      case Beginner => assert SkillLevels[0] == l;
      case Intermediate => assert SkillLevels[1] == l;
      case Advanced => assert SkillLevels[2] == l;
      case Expert => assert SkillLevels[3] == l;
    }
  }

  /** The skill both add handlers create: no name, level `intermediate`,
      no endorsements. */
  function NewSkill(category: string, now: nat): Skill {
    Skill(NewId(now), "", Intermediate, category, 0)
  }

  /** `handleAddCategory`, given the prompt's answer (`None` when the dialog
      is cancelled): a blank answer changes nothing, any other appends one
      new skill in the trimmed category. */
  function AddCategory(skills: seq<Skill>, answer: Option<string>, now: nat): (r: seq<Skill>)
    ensures answer.None? || Trim(answer.value) == [] ==> r == skills
    ensures answer.Some? && Trim(answer.value) != [] ==>
              |r| == |skills| + 1 && r[..|skills|] == skills
              && r[|skills|].category == Trim(answer.value) && Trim(r[|skills|].category) == r[|skills|].category
              && r[|skills|].name == [] && r[|skills|].level == Intermediate && r[|skills|].endorsements == 0
  {
    if answer.Some? && Trim(answer.value) != [] then
      TrimIdempotent(answer.value);
      skills + [NewSkill(Trim(answer.value), now)]
    else skills
  }

  /** `handleAddSkill(category)`: one new skill in that category, appended. */
  function AddSkill(skills: seq<Skill>, category: string, now: nat): (r: seq<Skill>)
    ensures |r| == |skills| + 1 && r[..|skills|] == skills
    ensures r[|skills|].category == category && r[|skills|].id == NewId(now)
  {
    skills + [NewSkill(category, now)]
  }

  /** The rename dialog's answer is used unless it is cancelled, blank, or
      exactly the old name. */
  predicate RenameAccepted(oldName: string, answer: Option<string>) {
    answer.Some? && Trim(answer.value) != [] && answer.value != oldName
  }

  /** `handleRenameCategory` as written: the skills whose stored category
      equals the name move to the trimmed new name. */
  function RenameCategory(skills: seq<Skill>, oldName: string, answer: Option<string>): (r: seq<Skill>)
    ensures |r| == |skills|
    ensures !RenameAccepted(oldName, answer) ==> r == skills
    ensures RenameAccepted(oldName, answer) ==>
              forall i :: 0 <= i < |skills| ==>
                r[i] == if skills[i].category == oldName then skills[i].(category := Trim(answer.value)) else skills[i]
  {
    if RenameAccepted(oldName, answer) then
      IdLists.UpdateById(skills, oldName, (s: Skill) => s.category, (s: Skill) => s.(category := Trim(answer.value)))
    else skills
  }

  /** `handleDeleteCategory`, given the confirm dialog's answer, as
      written: the skills whose stored category equals the name go. */
  function DeleteCategory(skills: seq<Skill>, category: string, confirmed: bool): (r: seq<Skill>)
    ensures !confirmed ==> r == skills
    ensures confirmed ==> (forall s :: s in r <==> s in skills && s.category != category) && IsSubsequence(r, skills)
  {
    var keep := (s: Skill) => s.category != category;
    FilterSubsequence(skills, keep);
    if confirmed then Filter(skills, keep) else skills
  }

  /** The group a skill is listed under: its category, or `fallback`
      (`'Uncategorized'` in the editor, `'Other Skills'` in the preview)
      when the category is empty. */
  function DisplayCategory(s: Skill, fallback: string): string {
    if s.category == [] then fallback else s.category
  }

  /** The group names in order of first appearance, each once: the keys of
      the grouping dictionary. */
  function Categories(skills: seq<Skill>, fallback: string): seq<string> {
    if skills == [] then []
    else
      var front := Categories(DropLast(skills), fallback);
      var c := DisplayCategory(Last(skills), fallback);
      if c in front then front else front + [c]
  }

  /** Each group name occurs once, and exactly the names some skill is
      listed under occur. */
  lemma {:induction false} CategoriesProperties(skills: seq<Skill>, fallback: string)
    ensures Distinct(Categories(skills, fallback))
    ensures forall c :: c in Categories(skills, fallback) <==> exists s :: s in skills && DisplayCategory(s, fallback) == c
  {
    if skills != [] {
      var front := Categories(DropLast(skills), fallback);
      CategoriesProperties(DropLast(skills), fallback);
      SplitLast(skills);
      var c := DisplayCategory(Last(skills), fallback);
      if c !in front {
        var r := front + [c];
        assert forall i :: 0 <= i < |front| ==> r[i] == front[i];
      }
      forall x ensures x in Categories(skills, fallback) <==> exists s :: s in skills && DisplayCategory(s, fallback) == x {
        if x in Categories(skills, fallback) && x != c {
          var s :| s in DropLast(skills) && DisplayCategory(s, fallback) == x;
          assert s in skills;
        }
        if x != c && (exists s :: s in skills && DisplayCategory(s, fallback) == x) {
          var s :| s in skills && DisplayCategory(s, fallback) == x;
          assert s in DropLast(skills);
        }
        assert Last(skills) in skills;
      }
    }
  }

  /** The skills listed under group `c`, in their list order. */
  function Group(skills: seq<Skill>, fallback: string, c: string): seq<Skill> {
    if skills == [] then []
    else Group(DropLast(skills), fallback, c) + (if DisplayCategory(Last(skills), fallback) == c then [Last(skills)] else [])
  }

  /** The test of membership in group `c`. */
  function InGroup(fallback: string, c: string): Skill -> bool {
    (s: Skill) => DisplayCategory(s, fallback) == c
  }

  /** A group is the `filter` of the skills by group name. */
  lemma {:induction false} GroupIsFilter(skills: seq<Skill>, fallback: string, c: string)
    ensures Group(skills, fallback, c) == Filter(skills, InGroup(fallback, c))
  {
    if skills != [] {
      GroupIsFilter(DropLast(skills), fallback, c);
    }
  }

  /** Every skill is listed under exactly one group, as often as it occurs. */
  lemma GroupsPartition(skills: seq<Skill>, fallback: string, s: Skill, c: string)
    ensures multiset(Group(skills, fallback, c))[s] == if DisplayCategory(s, fallback) == c then multiset(skills)[s] else 0
  {
    GroupIsFilter(skills, fallback, c);
    FilterMultiset(skills, InGroup(fallback, c));
  }

  /** The `reduce` into `{}` throws when a skill is listed under a name
      the object inherits: `acc[cat]` then reads that inherited truthy
      value, so no list is opened, and it has no `push`. */
  predicate Throws(skills: seq<Skill>, fallback: string) {
    exists s :: s in skills && Inherited(DisplayCategory(s, fallback))
  }

  /** The dictionary object the `reduce` returns: its own keys in the order
      they were created, and the list under each. */
  datatype Grouping = Grouping(created: seq<string>, groups: map<string, seq<Skill>>)

  /** The `reduce` that groups the skills: each skill is pushed onto its
      group's list, after the list is opened when the name finds nothing.
      A `TypeError` when some skill is listed under an inherited name;
      otherwise a key per group name, created in order of first
      appearance, holding that group. */
  method GroupByCategory(skills: seq<Skill>, fallback: string) returns (r: Result<Grouping>)
    ensures r.Failure? <==> Throws(skills, fallback)
    ensures r.Success? ==> r.value.created == Categories(skills, fallback)
    ensures r.Success? ==> forall c :: c in r.value.groups <==> c in r.value.created
    ensures r.Success? ==> forall c :: c in r.value.groups ==> r.value.groups[c] == Group(skills, fallback, c)
  {
    var created: seq<string>, groups: map<string, seq<Skill>> := [], map[];
    var i := 0;
    while i < |skills|
      invariant 0 <= i <= |skills|
      invariant created == Categories(skills[..i], fallback) && groups == GroupMap(skills[..i], fallback)
      invariant forall k :: 0 <= k < i ==> !Inherited(DisplayCategory(skills[k], fallback))
    {
      var s := skills[i];
      var cat := DisplayCategory(s, fallback);
      if Inherited(cat) {
        assert s in skills;
        return Failure("TypeError");
      }
      GroupMapGroups(skills[..i], fallback);
      assert cat in groups <==> cat in created;
      if cat !in groups {
        groups := groups[cat := []];
        created := created + [cat];
      }
      groups := groups[cat := groups[cat] + [s]];
      assert DropLast(skills[..i + 1]) == skills[..i] && Last(skills[..i + 1]) == s;
      i := i + 1;
    }
    assert skills[..i] == skills;
    assert !Throws(skills, fallback) by {
      forall s | s in skills ensures !Inherited(DisplayCategory(s, fallback)) {
        var k :| 0 <= k < |skills| && skills[k] == s;
      }
    }
    GroupMapGroups(skills, fallback);
    r := Success(Grouping(created, groups));
  }

  /** The dictionary the `reduce` builds, skill by skill. */
  function GroupMap(skills: seq<Skill>, fallback: string): map<string, seq<Skill>> {
    if skills == [] then map[]
    else
      var front := GroupMap(DropLast(skills), fallback);
      var s := Last(skills);
      var cat := DisplayCategory(s, fallback);
      var withKey := if cat in front then front else front[cat := []];
      withKey[cat := withKey[cat] + [s]]
  }

  /** `keys` and `groups` are the grouping of `skills`. */
  ghost predicate GroupedAs(skills: seq<Skill>, fallback: string, keys: seq<string>, groups: map<string, seq<Skill>>) {
    && keys == Categories(skills, fallback)
    && (forall c :: c in groups <==> c in keys)
    && (forall c :: c in groups ==> groups[c] == Group(skills, fallback, c))
  }

  /** The dictionary has a key per group name and holds each group under
      its name. */
  lemma {:induction false} GroupMapGroups(skills: seq<Skill>, fallback: string)
    ensures GroupedAs(skills, fallback, Categories(skills, fallback), GroupMap(skills, fallback))
  {
    if skills != [] {
      var prefix := DropLast(skills);
      SplitLast(skills);
      GroupMapGroups(prefix, fallback);
      GroupStep(prefix, Last(skills), fallback, Categories(prefix, fallback), GroupMap(prefix, fallback));
    }
  }

  /** Pushing one more skill onto its group, after opening the group when
      it is new, keeps the grouping right. */
  lemma GroupStep(prefix: seq<Skill>, s: Skill, fallback: string, keys: seq<string>, groups: map<string, seq<Skill>>)
    requires GroupedAs(prefix, fallback, keys, groups)
    ensures var cat := DisplayCategory(s, fallback);
            var keys' := if cat in groups then keys else keys + [cat];
            var withKey := if cat in groups then groups else groups[cat := []];
            GroupedAs(prefix + [s], fallback, keys', withKey[cat := withKey[cat] + [s]])
  {
    var cat := DisplayCategory(s, fallback);
    CategoriesAppend(prefix, s, fallback);
    forall c ensures Group(prefix + [s], fallback, c) == Group(prefix, fallback, c) + (if cat == c then [s] else []) {
      GroupAppend(prefix, s, fallback, c);
    }
    if cat !in groups {
      assert Group(prefix, fallback, cat) == [] by {
        GroupIsFilter(prefix, fallback, cat);
        CategoriesProperties(prefix, fallback);
        FilterNone(prefix, InGroup(fallback, cat));
      }
    }
  }

  lemma CategoriesAppend(prefix: seq<Skill>, s: Skill, fallback: string)
    ensures Categories(prefix + [s], fallback)
         == var front := Categories(prefix, fallback);
            if DisplayCategory(s, fallback) in front then front else front + [DisplayCategory(s, fallback)]
  {
    assert DropLast(prefix + [s]) == prefix && Last(prefix + [s]) == s;
  }

  lemma GroupAppend(prefix: seq<Skill>, s: Skill, fallback: string, c: string)
    ensures Group(prefix + [s], fallback, c) == Group(prefix, fallback, c) + (if DisplayCategory(s, fallback) == c then [s] else [])
  {
    assert DropLast(prefix + [s]) == prefix && Last(prefix + [s]) == s;
  }

  /** `Object.keys(skillsByCategory).sort()`: the editor's list of groups,
      or the `TypeError` of the grouping. */
  function EditorCategories(skills: seq<Skill>): (r: Result<seq<string>>)
    ensures r.Failure? <==> Throws(skills, "Uncategorized")
    ensures r.Success? ==> multiset(r.value) == multiset(Categories(skills, "Uncategorized"))
  {
    if Throws(skills, "Uncategorized") then Failure("TypeError")
    else Success(SortBy(Keys(Categories(skills, "Uncategorized")), LexCmp))
  }

  /** The editor lists every group once, in strictly ascending order. */
  lemma EditorCategoriesAscending(skills: seq<Skill>)
    ensures var r := EditorCategories(skills);
            r.Success? ==>
              && (forall i, j :: 0 <= i < j < |r.value| ==> LexCmp(r.value[i], r.value[j]) < 0)
              && (forall c :: c in r.value <==> c in Categories(skills, "Uncategorized"))
  {
    if !Throws(skills, "Uncategorized") {
      var cs := Categories(skills, "Uncategorized");
      var keys := Keys(cs);
      var r := EditorCategories(skills).value;
      CategoriesProperties(skills, "Uncategorized");
      KeysMembers(cs);
      LexCmpPreorder(keys);
      SortBySorted(keys, LexCmp);
      DistinctPermutation(cs, r);
      forall c ensures c in r <==> c in cs {
        assert c in r <==> c in multiset(r);
      }
      forall i, j | 0 <= i < j < |r| ensures LexCmp(r[i], r[j]) < 0 {
        assert r[i] != r[j];
      }
    }
  }

  /** The rename the evidently intended one would be: it acts on the group
      as displayed, so renaming `'Uncategorized'` also reaches the skills
      with an empty category. */
  function RenameDisplayedCategory(skills: seq<Skill>, oldName: string, answer: Option<string>): (r: seq<Skill>)
    ensures |r| == |skills|
    ensures !RenameAccepted(oldName, answer) ==> r == skills
    ensures RenameAccepted(oldName, answer) ==>
              forall i :: 0 <= i < |skills| ==>
                r[i] == if DisplayCategory(skills[i], "Uncategorized") == oldName then skills[i].(category := Trim(answer.value)) else skills[i]
  {
    if RenameAccepted(oldName, answer) then
      IdLists.UpdateById(skills, oldName, (s: Skill) => DisplayCategory(s, "Uncategorized"), (s: Skill) => s.(category := Trim(answer.value)))
    else skills
  }

  /** After an accepted rename to a different name, the old group is empty. */
  lemma RenameDisplayedEmptiesGroup(skills: seq<Skill>, oldName: string, answer: Option<string>)
    requires RenameAccepted(oldName, answer) && Trim(answer.value) != oldName
    ensures Group(RenameDisplayedCategory(skills, oldName, answer), "Uncategorized", oldName) == []
  {
    var r := RenameDisplayedCategory(skills, oldName, answer);
    var newName := Trim(answer.value);
    forall s | s in r ensures !InGroup("Uncategorized", oldName)(s) {
      var i :| 0 <= i < |r| && r[i] == s;
      if DisplayCategory(skills[i], "Uncategorized") == oldName {
        assert s.category == newName && newName != [];
      }
    }
    GroupIsFilter(r, "Uncategorized", oldName);
    FilterNone(r, InGroup("Uncategorized", oldName));
  }

  /** The delete the evidently intended one would be: every skill listed
      under the group goes. */
  function DeleteDisplayedCategory(skills: seq<Skill>, category: string, confirmed: bool): (r: seq<Skill>)
    ensures !confirmed ==> r == skills
    ensures confirmed ==> forall s :: s in r <==> s in skills && DisplayCategory(s, "Uncategorized") != category
  {
    if confirmed then Filter(skills, (s: Skill) => DisplayCategory(s, "Uncategorized") != category) else skills
  }

  /** The editor lists a skill with an empty category under
      `'Uncategorized'`, yet renaming or deleting that group as written
      leaves the skill where it was; the displayed-group versions move or
      delete it. */
  lemma UncategorizedGroupUnreachable(loose: Skill, answer: string)
    requires loose.category == ""
    requires RenameAccepted("Uncategorized", Some(answer))
    ensures Group([loose], "Uncategorized", "Uncategorized") == [loose]
    ensures RenameCategory([loose], "Uncategorized", Some(answer)) == [loose]
    ensures DeleteCategory([loose], "Uncategorized", true) == [loose]
    ensures RenameDisplayedCategory([loose], "Uncategorized", Some(answer)) == [loose.(category := Trim(answer))]
    ensures DeleteDisplayedCategory([loose], "Uncategorized", true) == []
  {
    LooseListed(loose);
    LooseRenamed(loose, answer);
    LooseDeleted(loose);
  }

  lemma LooseListed(loose: Skill)
    requires loose.category == ""
    ensures Group([loose], "Uncategorized", "Uncategorized") == [loose]
  {
    assert DropLast([loose]) == [] && Last([loose]) == loose;
  }

  lemma LooseRenamed(loose: Skill, answer: string)
    requires loose.category == ""
    requires RenameAccepted("Uncategorized", Some(answer))
    ensures RenameCategory([loose], "Uncategorized", Some(answer)) == [loose]
    ensures RenameDisplayedCategory([loose], "Uncategorized", Some(answer)) == [loose.(category := Trim(answer))]
  {
    var r := RenameCategory([loose], "Uncategorized", Some(answer));
    assert r[0] == loose;
    var d := RenameDisplayedCategory([loose], "Uncategorized", Some(answer));
    assert d[0] == loose.(category := Trim(answer));
  }

  lemma LooseDeleted(loose: Skill)
    requires loose.category == ""
    ensures DeleteCategory([loose], "Uncategorized", true) == [loose]
    ensures DeleteDisplayedCategory([loose], "Uncategorized", true) == []
  {
    assert DropLast([loose]) == [] && Last([loose]) == loose;
  }
}
