/** The live preview: the first personal section as a header, then the
    other sections that are visible, in ascending `order`, each shown the
    way its kind calls for. */
module CvPreview {
  import opened Wrappers
  import opened Seqs
  import opened Sorting
  import opened Strings
  import opened CvTypes
  import opened JsObjects
  import SkillsSection
  import CertificationSection

  /** The content of the first personal section, whatever its `visible`
      flag and `order`; `None` when there is no personal section. */
  function Header(sections: seq<Section>): (r: Option<Content>)
    ensures r.None? <==> forall i :: 0 <= i < |sections| ==> sections[i].kind != PersonalType
    ensures r.Some? ==> exists i :: 0 <= i < |sections| && sections[i].kind == PersonalType
                          && r.value == sections[i].content
                          && forall k :: 0 <= k < i ==> sections[k].kind != PersonalType
  {
    match FindKind(sections, PersonalType)
    case None => None
    case Some(s) => Some(s.content)
  }

  /** Changing the visibility, order, id or title of sections does not
      change the header. */
  lemma {:induction false} HeaderIgnoresPlacement(a: seq<Section>, b: seq<Section>)
    requires |a| == |b|
    requires forall i :: 0 <= i < |a| ==> a[i].kind == b[i].kind && a[i].content == b[i].content
    ensures Header(a) == Header(b)
    decreases |a|
  {
    if a != [] && a[0].kind != PersonalType {
      assert forall i :: 0 <= i < |a| - 1 ==> a[1..][i] == a[i + 1] && b[1..][i] == b[i + 1];
      HeaderIgnoresPlacement(a[1..], b[1..]);
      assert FindKind(a, PersonalType) == FindKind(a[1..], PersonalType);
      assert FindKind(b, PersonalType) == FindKind(b[1..], PersonalType);
    }
  }

  predicate NotPersonal(s: Section) {
    s.kind != PersonalType
  }

  predicate Shown(s: Section) {
    s.kind != PersonalType && s.visible
  }

  function ShownAtOrder(order: int): Section -> bool {
    (s: Section) => Shown(s) && s.order == order
  }

  /** The sections the body renders, in rendering order: the non-personal
      sections sorted by `order`, then the hidden ones rendering nothing. */
  function Body(sections: seq<Section>): (r: seq<Section>)
    ensures forall s :: s in r <==> s in sections && Shown(s)
  {
    var np := Filter(sections, NotPersonal);
    var sorted := SortBy(np, OrderCmp);
    assert forall s :: s in sorted <==> s in np by {
      forall s ensures s in sorted <==> s in np {
        assert s in sorted <==> s in multiset(sorted);
        assert s in np <==> s in multiset(np);
      }
    }
    Filter(sorted, Visible)
  }

  /** The body is the visible non-personal sections sorted by `order`. */
  lemma {:induction false} BodyIsSortedShown(sections: seq<Section>)
    ensures Body(sections) == SortBy(Filter(sections, Shown), OrderCmp)
  {
    var np := Filter(sections, NotPersonal);
    assert KeyedOn(np, OrderCmp, OrderKey);
    SortFilterCommute(np, OrderCmp, OrderKey, Visible);
    FilterFilter(sections, NotPersonal, Visible, Shown);
  }

  /** The body ascends by `order`. */
  lemma {:induction false} BodySorted(sections: seq<Section>)
    ensures SortedByKey(Body(sections), OrderKey)
  {
    BodyIsSortedShown(sections);
    var shown := Filter(sections, Shown);
    assert KeyedOn(shown, OrderCmp, OrderKey);
    SortByKeySorted(shown, OrderCmp, OrderKey);
  }

  /** Sections of equal order appear in their stored order. */
  lemma {:induction false} BodyStable(sections: seq<Section>, order: int)
    ensures Filter(Body(sections), AtOrder(order)) == Filter(sections, ShownAtOrder(order))
  {
    BodyIsSortedShown(sections);
    var shown := Filter(sections, Shown);
    assert KeyedOn(shown, OrderCmp, OrderKey);
    SortByStable(shown, OrderCmp, OrderKey, AtOrder(order));
    FilterFilter(sections, Shown, AtOrder(order), ShownAtOrder(order));
  }

  /** The date line of an entry: the start, then `" - "` and the end when
      there is one, then `" - Present"` when the entry is current. */
  function DateText(start: string, end: string, current: bool): (r: string)
    ensures start <= r
    ensures end != "" ==> start + " - " + end <= r
    ensures |r| == |start| + (if end != "" then 3 + |end| else 0) + (if current then 10 else 0)
    ensures current <==> |r| >= |start| + 10 && r[|r| - 10..] == " - Present" && (end == "" || |r| > |start| + 3 + |end|)
  {
    start + (if end != "" then " - " + end else "") + (if current then " - Present" else "")
  }

  /** A shown skill's level tag: none for the default level. */
  function LevelTag(s: Skill): (r: Option<string>)
    ensures r.None? <==> s.level == Intermediate
    ensures r.Some? ==> r.value == "(" + LevelName(s.level) + ")"
  {
    if s.level != Intermediate then Some("(" + LevelName(s.level) + ")") else None
  }

  /** The skills and the category order a skills content holds: a legacy
      list has no order, the `{skills, categoryOrder}` form may have one,
      and any other content counts as no skills. */
  function SkillsOf(c: Content): (seq<Skill>, Option<seq<string>>) {
    match c
    case SkillList(xs) => (xs, None)
    case GroupedSkills(xs, order) => (xs, order)
    case _ => ([], None)
  }

  /** The order of the category headings: with an order, its categories
      that occur, in its order, then the other categories in first
      appearance order; without one, the categories sorted. */
  function OrderedCategories(all: seq<string>, order: Option<seq<string>>): seq<string> {
    match order
    case Some(o) => Filter(o, (c: string) => c in all) + Filter(all, (c: string) => c !in o)
    case None => SortBy(all, LexCmp)
  }

  /** Every category gets a heading and nothing else does; headings do not
      repeat when the order does not; without an order they ascend. */
  lemma {:induction false} OrderedCategoriesProperties(all: seq<string>, order: Option<seq<string>>)
    requires Distinct(all)
    ensures forall c :: c in OrderedCategories(all, order) <==> c in all
    ensures order.Some? && Distinct(order.value) ==> Distinct(OrderedCategories(all, order))
    ensures order.None? ==> forall i, j :: 0 <= i < j < |all| ==>
              LexCmp(OrderedCategories(all, order)[i], OrderedCategories(all, order)[j]) < 0
  {
    match order
    case Some(o) =>
      if Distinct(o) {
        GivenOrderDistinct(all, o);
      }
    case None =>
      SortedCategories(all);
  }

  lemma {:induction false} GivenOrderDistinct(all: seq<string>, o: seq<string>)
    requires Distinct(all) && Distinct(o)
    ensures Distinct(OrderedCategories(all, Some(o)))
  {
    var front := Filter(o, (c: string) => c in all);
    var back := Filter(all, (c: string) => c !in o);
    FilterDistinct(all, (c: string) => c !in o);
    FilterDistinct(o, (c: string) => c in all);
    DistinctConcat(front, back);
  }

  /** The headings are exactly the categories, whatever the order. */
  lemma OrderedCategoriesMembers(all: seq<string>, order: Option<seq<string>>)
    ensures forall c :: c in OrderedCategories(all, order) <==> c in all
  {
    if order.None? {
      var r := SortBy(all, LexCmp);
      forall c ensures c in r <==> c in all {
        assert c in r <==> c in multiset(r);
      }
    }
  }

  lemma {:induction false} SortedCategories(all: seq<string>)
    requires Distinct(all)
    ensures forall c :: c in OrderedCategories(all, None) <==> c in all
    ensures forall i, j :: 0 <= i < j < |all| ==>
              LexCmp(OrderedCategories(all, None)[i], OrderedCategories(all, None)[j]) < 0
  {
    var r := SortBy(all, LexCmp);
    LexCmpPreorder(all);
    SortBySorted(all, LexCmp);
    forall c ensures c in r <==> c in all {
      assert c in r <==> c in multiset(r);
    }
    DistinctPermutation(all, r);
    forall i, j | 0 <= i < j < |r| ensures LexCmp(r[i], r[j]) < 0 {
      assert r[i] != r[j];
    }
  }

  /** The heading of skills without a category. */
  const OtherSkills := "Other Skills"

  /** `Object.keys` of the grouping dictionary of a skills content. */
  function AllCategories(c: Content): seq<string> {
    Keys(SkillsSection.Categories(SkillsOf(c).0, OtherSkills))
  }

  /** The category headings of a skills content, in display order. */
  function Headings(c: Content): seq<string> {
    OrderedCategories(AllCategories(c), SkillsOf(c).1)
  }

  /** The grouping of a skills content throws. */
  predicate SkillsThrow(c: Content) {
    SkillsSection.Throws(SkillsOf(c).0, OtherSkills)
  }

  /** With a category order, the categories it leaves out keep the
      `Object.keys` order, so a year-like category comes before a word
      that was seen first. */
  lemma HeadingsNumericFirst(tools: Skill, year: Skill)
    requires tools.category == "Tools" && year.category == "2024"
    ensures Headings(GroupedSkills([tools, year], Some([]))) == ["2024", "Tools"]
  {
    YearIsIndex();
    assert !IsArrayIndex("Tools") by { assert !IsDigit("Tools"[0]); }
    HeadingsIndexFirst(tools, year);
  }

  /** A category that is an array index heads the list of categories the
      order leaves out, ahead of a word category listed first. */
  lemma HeadingsIndexFirst(word: Skill, index: Skill)
    requires word.category != [] && NotArrayIndex(word.category) && IsArrayIndex(index.category)
    ensures Headings(GroupedSkills([word, index], Some([]))) == [index.category, word.category]
  {
    var c := GroupedSkills([word, index], Some([]));
    var created := [word.category, index.category];
    assert SkillsOf(c).0 == [word, index];
    TwoCategories(word, index);
    assert AllCategories(c) == Keys(created);
    IndexKeyFirst(word.category, index.category);
    EmptyOrderHeadings(c);
    assert Headings(c) == Keys(created);
  }

  /** With an empty category order, the headings are the `Object.keys`
      of the grouping. */
  lemma EmptyOrderHeadings(c: Content)
    requires c.GroupedSkills? && c.categoryOrder == Some([])
    ensures Headings(c) == AllCategories(c)
  {
    EmptyOrderKeepsKeys(AllCategories(c));
  }

  lemma TwoCategories(a: Skill, b: Skill)
    requires a.category != [] && b.category != [] && a.category != b.category
    ensures SkillsSection.Categories([a, b], OtherSkills) == [a.category, b.category]
  {
    var skills := [a, b];
    assert DropLast(skills) == [a] && Last(skills) == b && DropLast([a]) == [];
    assert SkillsSection.Categories([a], OtherSkills) == [a.category];
    assert SkillsSection.DisplayCategory(b, OtherSkills) == b.category;
  }

  /** An empty category order leaves the `Object.keys` order as it is. */
  lemma EmptyOrderKeepsKeys(all: seq<string>)
    ensures OrderedCategories(all, Some([])) == all
  {
    FilterNone([], (c: string) => c in all);
    FilterAll(all, (c: string) => c !in []);
  }

  /** One group per heading: the heading and its skills. */
  function GroupsFor(skills: seq<Skill>, headings: seq<string>): (r: seq<(string, seq<Skill>)>)
    ensures |r| == |headings|
    ensures forall i :: 0 <= i < |headings| ==> r[i] == (headings[i], SkillsSection.Group(skills, OtherSkills, headings[i]))
  {
    if headings == [] then []
    else [(headings[0], SkillsSection.Group(skills, OtherSkills, headings[0]))] + GroupsFor(skills, headings[1..])
  }

  /** The skill groups the preview shows. */
  function SkillGroups(c: Content): seq<(string, seq<Skill>)> {
    GroupsFor(SkillsOf(c).0, Headings(c))
  }

  /** With a category order that repeats nothing, or none, no heading
      repeats and each heading is a category some skill is shown under. */
  lemma {:induction false} HeadingsDistinct(c: Content)
    requires c.GroupedSkills? && c.categoryOrder.Some? ==> Distinct(c.categoryOrder.value)
    ensures Distinct(Headings(c))
    ensures forall h :: h in Headings(c) <==> h in SkillsSection.Categories(SkillsOf(c).0, OtherSkills)
  {
    var cs := SkillsSection.Categories(SkillsOf(c).0, OtherSkills);
    SkillsSection.CategoriesProperties(SkillsOf(c).0, OtherSkills);
    KeysMembers(cs);
    OrderedCategoriesProperties(AllCategories(c), SkillsOf(c).1);
    var hs := Headings(c);
    if SkillsOf(c).1.None? {
      forall i, j | 0 <= i < j < |hs| ensures hs[i] != hs[j] {
        assert LexCmp(hs[i], hs[j]) < 0;
      }
    }
  }

  /** Every skill is shown, under the heading of its category. */
  lemma {:induction false} SkillShown(c: Content, s: Skill)
    requires s in SkillsOf(c).0
    ensures var h := SkillsSection.DisplayCategory(s, OtherSkills);
            exists i :: 0 <= i < |SkillGroups(c)| && SkillGroups(c)[i].0 == h && s in SkillGroups(c)[i].1
  {
    var skills := SkillsOf(c).0;
    var h := SkillsSection.DisplayCategory(s, OtherSkills);
    SkillsSection.CategoriesProperties(skills, OtherSkills);
    KeysMembers(SkillsSection.Categories(skills, OtherSkills));
    OrderedCategoriesMembers(AllCategories(c), SkillsOf(c).1);
    var hs := Headings(c);
    assert h in hs;
    var i :| 0 <= i < |hs| && hs[i] == h;
    var g := SkillGroups(c)[i];
    assert g == (h, SkillsSection.Group(skills, OtherSkills, h));
    SkillsSection.GroupsPartition(skills, OtherSkills, s, h);
    assert multiset(g.1)[s] > 0;
  }

  /** A skill is shown under one heading only, as often as it occurs. */
  lemma {:induction false} SkillShownOnce(c: Content, s: Skill, i: nat)
    requires c.GroupedSkills? && c.categoryOrder.Some? ==> Distinct(c.categoryOrder.value)
    requires i < |SkillGroups(c)|
    ensures s in SkillGroups(c)[i].1 ==>
              && SkillGroups(c)[i].0 == SkillsSection.DisplayCategory(s, OtherSkills)
              && multiset(SkillGroups(c)[i].1)[s] == multiset(SkillsOf(c).0)[s]
              && forall j :: 0 <= j < |SkillGroups(c)| && j != i ==> s !in SkillGroups(c)[j].1
  {
    var skills := SkillsOf(c).0;
    var groups := SkillGroups(c);
    var hs := Headings(c);
    HeadingsDistinct(c);
    SkillsSection.GroupsPartition(skills, OtherSkills, s, hs[i]);
    if s in groups[i].1 {
      assert multiset(groups[i].1)[s] > 0;
      forall j | 0 <= j < |groups| && j != i ensures s !in groups[j].1 {
        SkillsSection.GroupsPartition(skills, OtherSkills, s, hs[j]);
        assert hs[i] != hs[j];
      }
    }
  }

  /** The skills block as the preview builds it: the grouping `reduce`
      into a dictionary, its `Object.keys` in heading order, then one
      group per heading; or the `TypeError` the grouping throws. */
  method RenderSkills(c: Content) returns (r: Result<seq<(string, seq<Skill>)>>)
    ensures r.Failure? <==> SkillsThrow(c)
    ensures r.Success? ==> r.value == SkillGroups(c)
  {
    var skills := SkillsOf(c).0;
    var grouping := SkillsSection.GroupByCategory(skills, OtherSkills);
    if grouping.Failure? {
      return Failure(grouping.error);
    }
    var allCategories := Keys(grouping.value.created);
    KeysMembers(grouping.value.created);
    var headings := OrderedCategories(allCategories, SkillsOf(c).1);
    OrderedCategoriesMembers(allCategories, SkillsOf(c).1);
    var groups := GroupsByHeading(skills, headings, grouping.value.groups);
    r := Success(groups);
  }

  /** The `map` over the headings that looks each one up in the grouping
      dictionary. */
  method GroupsByHeading(skills: seq<Skill>, headings: seq<string>, byCategory: map<string, seq<Skill>>)
    returns (groups: seq<(string, seq<Skill>)>)
    requires forall h :: h in headings ==> h in byCategory && byCategory[h] == SkillsSection.Group(skills, OtherSkills, h)
    ensures groups == GroupsFor(skills, headings)
  {
    groups := [];
    var i := 0;
    while i < |headings|
      invariant 0 <= i <= |headings|
      invariant |groups| == i
      invariant forall k :: 0 <= k < i ==> groups[k] == (headings[k], SkillsSection.Group(skills, OtherSkills, headings[k]))
    {
      var h := headings[i];
      assert h in headings;
      groups := groups + [(h, byCategory[h])];
      i := i + 1;
    }
  }

  /** What a rendered entry shows in its heading line and its date line. */
  datatype Entry = Entry(heading: string, dates: Option<string>)

  /** What a rendered section shows under its title. */
  datatype Block =
    | SummaryBlock(text: string)
    | EntriesBlock(entries: seq<Entry>)
    | SkillsBlock(groups: seq<(string, seq<Skill>)>)
    | CertificationsBlock(certifications: seq<Certification>)
    | LanguagesBlock(languages: seq<Language>)
    | ReferencesBlock(references: seq<Reference>)
    | NoBlock

  function ExperienceEntry(e: Experience): Entry {
    Entry(e.jobTitle, Some(DateText(e.startDate, e.endDate, e.currentlyWorking)))
  }

  function EducationEntry(e: Education): Entry {
    Entry(e.degree + (if e.field != "" then " in " + e.field else ""),
          Some(DateText(e.startDate, e.endDate, e.currentlyStudying)))
  }

  /** A project shows a date line only when it has a start or an end, and
      never `" - Present"`: projects have no current flag. */
  function ProjectEntry(p: Project): Entry {
    Entry(p.title, if p.startDate != "" || p.endDate != "" then Some(DateText(p.startDate, p.endDate, false)) else None)
  }

  function VolunteeringEntry(v: Volunteering): Entry {
    Entry(v.role, Some(DateText(v.startDate, v.endDate, v.currentlyVolunteering)))
  }

  /** `(content)?.text || ''`. */
  function SummaryText(c: Content): (r: string)
    ensures c.SummaryContent? ==> r == c.text
  {
    match Prop(c, "text")
    case Some(t) => t
    case None => ""
  }

  /** The block of a section, chosen by its kind; a list kind whose content
      is not the matching list shows no entries. */
  function RenderBlock(s: Section): (b: Block)
    ensures s.kind == CertificationsType && s.content.Certifications? ==>
              b == CertificationsBlock(CertificationSection.SortedForDisplay(s.content.certifications))
    ensures s.kind == SkillsType ==> b == SkillsBlock(SkillGroups(s.content))
  {
    match s.kind
    case SummaryType => SummaryBlock(SummaryText(s.content))
    case ExperienceType =>
      EntriesBlock(if s.content.Experiences? then Map(s.content.experiences, ExperienceEntry) else [])
    case EducationType =>
      EntriesBlock(if s.content.Educations? then Map(s.content.educations, EducationEntry) else [])
    case ProjectsType =>
      EntriesBlock(if s.content.Projects? then Map(s.content.projects, ProjectEntry) else [])
    case VolunteeringType =>
      EntriesBlock(if s.content.Volunteerings? then Map(s.content.volunteerings, VolunteeringEntry) else [])
    case SkillsType => SkillsBlock(SkillGroups(s.content))
    case CertificationsType =>
      CertificationsBlock(if s.content.Certifications? then CertificationSection.SortedForDisplay(s.content.certifications) else [])
    case LanguagesType => LanguagesBlock(if s.content.Languages? then s.content.languages else [])
    case ReferencesType => ReferencesBlock(if s.content.References? then s.content.references else [])
    case _ => NoBlock
  }

  datatype Preview = Preview(header: Option<Content>, body: seq<(string, Block)>)

  /** Rendering the section throws: a skills section whose grouping does. */
  predicate RenderThrows(s: Section) {
    s.kind == SkillsType && SkillsThrow(s.content)
  }

  /** The whole preview of a document, or the `TypeError` that one shown
      section's rendering throws, which takes the whole preview down. */
  function Render(cv: CV): (p: Result<Preview>)
    ensures p.Failure? <==> exists s :: s in Body(cv.sections) && RenderThrows(s)
    ensures p.Success? ==> p.value.header == Header(cv.sections)
    ensures p.Success? ==> |p.value.body| == |Body(cv.sections)|
    ensures p.Success? ==> forall i :: 0 <= i < |p.value.body| ==>
              p.value.body[i] == (Body(cv.sections)[i].title, RenderBlock(Body(cv.sections)[i]))
  {
    if exists s :: s in Body(cv.sections) && RenderThrows(s) then Failure("TypeError")
    else Success(Preview(Header(cv.sections), Map(Body(cv.sections), (s: Section) => (s.title, RenderBlock(s)))))
  }

  /** Every block the preview shows comes from a visible section of the
      document; a hidden section is never rendered, so it cannot throw. */
  lemma {:induction false} HiddenRendersNothing(cv: CV)
    ensures Render(cv).Success? ==>
              forall i :: 0 <= i < |Render(cv).value.body| ==> Body(cv.sections)[i].visible && Body(cv.sections)[i] in cv.sections
    ensures Render(cv).Failure? ==> exists s :: s in cv.sections && s.visible && RenderThrows(s)
  {
    var b := Body(cv.sections);
    forall i | 0 <= i < |b| ensures b[i].visible && b[i] in cv.sections {
      assert b[i] in b;
    }
    if Render(cv).Failure? {
      var s :| s in b && RenderThrows(s);
    }
  }
}
