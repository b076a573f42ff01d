/** The CV document: sections of eleven kinds, each holding the content its
    kind calls for, plus the document metadata. Optional string fields of
    list items are plain strings with "" for "absent": every consumer in the
    model only tests them for truthiness, for which the two agree. */
module CvTypes {
  import opened Wrappers
  import opened Seqs
  import opened Strings

  datatype SectionType =
    | PersonalType | SummaryType | ExperienceType | EducationType | SkillsType
    | ProjectsType | CertificationsType | LanguagesType | VolunteeringType
    | ReferencesType | CustomType

  /** The string the document stores in a section's `type`. */
  function TypeName(t: SectionType): string {
    match t
    case PersonalType => "personal"
    case SummaryType => "summary"
    case ExperienceType => "experience"
    case EducationType => "education"
    case SkillsType => "skills"
    case ProjectsType => "projects"
    case CertificationsType => "certifications"
    case LanguagesType => "languages"
    case VolunteeringType => "volunteering"
    case ReferencesType => "references"
    case CustomType => "custom"
  }

  datatype PersonalInfo = PersonalInfo(
    firstName: string, lastName: string, email: string, phone: string, location: string,
    profileImage: Option<string>, website: Option<string>, linkedin: Option<string>, github: Option<string>)

  datatype Experience = Experience(
    id: string, jobTitle: string, company: string, startDate: string, endDate: string,
    currentlyWorking: bool, description: string, location: string)

  datatype Education = Education(
    id: string, school: string, degree: string, field: string, startDate: string, endDate: string,
    currentlyStudying: bool, description: string)

  datatype SkillLevel = Beginner | Intermediate | Advanced | Expert

  function LevelName(l: SkillLevel): string {
    match l
    case Beginner => "beginner"
    case Intermediate => "intermediate"
    case Advanced => "advanced"
    case Expert => "expert"
  }

  datatype Skill = Skill(id: string, name: string, level: SkillLevel, category: string, endorsements: int)

  datatype Project = Project(
    id: string, title: string, description: string, startDate: string, endDate: string,
    technologies: seq<string>, link: string, image: string)

  datatype Certification = Certification(
    id: string, name: string, issuer: string, issueDate: string, expiryDate: string,
    credentialId: string, credentialUrl: string)

  datatype Proficiency = Elementary | Limited | Professional | Fluent | Native

  function ProficiencyName(p: Proficiency): string {
    match p
    case Elementary => "elementary"
    case Limited => "limited"
    case Professional => "professional"
    case Fluent => "fluent"
    case Native => "native"
  }

  datatype Language = Language(id: string, name: string, proficiency: Proficiency)

  datatype Volunteering = Volunteering(
    id: string, role: string, organization: string, startDate: string, endDate: string,
    currentlyVolunteering: bool, description: string, location: string)

  datatype Reference = Reference(
    id: string, name: string, position: string, company: string, email: string, phone: string,
    relationship: string)

  /** What a section holds. The list variants are JavaScript arrays;
      `GroupedSkills` is the `{skills, categoryOrder}` object, `EmptyList`
      an array whose element type nothing fixes (a new custom section),
      `Fields` any other record of string values (keys distinct, in key
      order) and `Text` a bare string. */
  datatype Content =
    | PersonalContent(info: PersonalInfo)
    | SummaryContent(text: string)
    | Experiences(experiences: seq<Experience>)
    | Educations(educations: seq<Education>)
    | SkillList(skills: seq<Skill>)
    | GroupedSkills(skills: seq<Skill>, categoryOrder: Option<seq<string>>)
    | Projects(projects: seq<Project>)
    | Certifications(certifications: seq<Certification>)
    | Languages(languages: seq<Language>)
    | Volunteerings(volunteerings: seq<Volunteering>)
    | References(references: seq<Reference>)
    | EmptyList
    | Fields(entries: seq<(string, string)>)
    | Text(value: string)

  /** `Array.isArray(content)`. */
  predicate IsArray(c: Content) {
    !(c.PersonalContent? || c.SummaryContent? || c.GroupedSkills? || c.Fields? || c.Text?)
  }

  datatype Section = Section(id: string, kind: SectionType, title: string, order: int, visible: bool, content: Content)

  datatype Theme = Light | Dark

  datatype Metadata = Metadata(theme: Theme, fontSize: int, fontFamily: string, lineHeight: real, margin: int)

  datatype CV = CV(
    id: string, userId: string, title: string, template: string, sections: seq<Section>,
    atsScore: int, metadata: Metadata)

  /** The properties of a list item that the exporter, the ATS checks and
      the preview read without knowing the item's kind; "" where an item
      has no such property. */
  datatype ItemView = ItemView(
    title: string, jobTitle: string, name: string, company: string, school: string, issuer: string,
    startDate: string, endDate: string, currentlyWorking: bool, description: string, location: string)

  const NoItem := ItemView("", "", "", "", "", "", "", "", false, "", "")

  function ExperienceView(e: Experience): ItemView {
    NoItem.(jobTitle := e.jobTitle, company := e.company, startDate := e.startDate, endDate := e.endDate,
            currentlyWorking := e.currentlyWorking, description := e.description, location := e.location)
  }

  function EducationView(e: Education): ItemView {
    NoItem.(school := e.school, startDate := e.startDate, endDate := e.endDate, description := e.description)
  }

  function SkillView(s: Skill): ItemView {
    NoItem.(name := s.name)
  }

  function ProjectView(p: Project): ItemView {
    NoItem.(title := p.title, description := p.description, startDate := p.startDate, endDate := p.endDate)
  }

  function CertificationView(c: Certification): ItemView {
    NoItem.(name := c.name, issuer := c.issuer)
  }

  function LanguageView(l: Language): ItemView {
    NoItem.(name := l.name)
  }

  function VolunteeringView(v: Volunteering): ItemView {
    NoItem.(startDate := v.startDate, endDate := v.endDate, description := v.description, location := v.location)
  }

  function ReferenceView(r: Reference): ItemView {
    NoItem.(name := r.name, company := r.company)
  }

  function Map<A, B>(s: seq<A>, f: A -> B): (r: seq<B>)
    ensures |r| == |s| && forall i :: 0 <= i < |s| ==> r[i] == f(s[i])
  {
    if s == [] then [] else [f(s[0])] + Map(s[1..], f)
  }

  lemma {:induction false} MapConcat<A, B>(a: seq<A>, b: seq<A>, f: A -> B)
    ensures Map(a + b, f) == Map(a, f) + Map(b, f)
  {
    assert forall i :: 0 <= i < |a + b| ==> Map(a + b, f)[i] == (Map(a, f) + Map(b, f))[i];
  }

  /** Mapping keeps a permutation a permutation. */
  lemma {:induction false} MapMultiset<A, B>(a: seq<A>, b: seq<A>, f: A -> B)
    requires multiset(a) == multiset(b)
    ensures multiset(Map(a, f)) == multiset(Map(b, f))
    decreases |a|
  {
    if a != [] {
      assert a[0] in multiset(b);
      var i :| 0 <= i < |b| && b[i] == a[0];
      var rest := b[..i] + b[i + 1..];
      assert b == b[..i] + [b[i]] + b[i + 1..];
      assert a == [a[0]] + a[1..];
      assert multiset(b) == multiset(b[..i]) + multiset{b[i]} + multiset(b[i + 1..]);
      assert multiset(a) == multiset{a[0]} + multiset(a[1..]);
      assert multiset(rest) == multiset(b[..i]) + multiset(b[i + 1..]);
      assert multiset(a[1..]) == multiset(a) - multiset{a[0]};
      assert multiset(rest) == multiset(b) - multiset{b[i]};
      MapMultiset(a[1..], rest, f);
      MapConcat(b[..i] + [b[i]], b[i + 1..], f);
      MapConcat(b[..i], [b[i]], f);
      MapConcat(b[..i], b[i + 1..], f);
      MapConcat([a[0]], a[1..], f);
    }
  }

  /** The elements of an array content, seen as generic items; no items for
      a content that is not an array. */
  function Items(c: Content): (r: seq<ItemView>)
    ensures !IsArray(c) ==> r == []
  {
    match c
    case Experiences(xs) => Map(xs, ExperienceView)
    case Educations(xs) => Map(xs, EducationView)
    case SkillList(xs) => Map(xs, SkillView)
    case Projects(xs) => Map(xs, ProjectView)
    case Certifications(xs) => Map(xs, CertificationView)
    case Languages(xs) => Map(xs, LanguageView)
    case Volunteerings(xs) => Map(xs, VolunteeringView)
    case References(xs) => Map(xs, ReferenceView)
    case _ => []
  }

  /** The number of elements of an array content (`content.length`). */
  function ArrayLength(c: Content): nat {
    match c
    case Experiences(xs) => |xs|
    case Educations(xs) => |xs|
    case SkillList(xs) => |xs|
    case Projects(xs) => |xs|
    case Certifications(xs) => |xs|
    case Languages(xs) => |xs|
    case Volunteerings(xs) => |xs|
    case References(xs) => |xs|
    case _ => 0
  }

  lemma ItemsLength(c: Content)
    ensures |Items(c)| == ArrayLength(c)
  {
  }

  /** `content[key]` on a record: the value of the first entry carrying
      the key, or none when no entry does. */
  function Lookup(entries: seq<(string, string)>, key: string): (r: Option<string>)
    ensures r.Some? <==> exists i :: 0 <= i < |entries| && entries[i].0 == key
    ensures r.Some? ==> exists i :: 0 <= i < |entries| && entries[i] == (key, r.value)
                                     && forall k :: 0 <= k < i ==> entries[k].0 != key
  {
    if entries == [] then None
    else if entries[0].0 == key then Some(entries[0].1)
    else
      var r := Lookup(entries[1..], key);
      assert forall i :: 1 <= i < |entries| ==> entries[i] == entries[1..][i - 1];
      r
  }

  /** In a record whose keys are distinct, as those of a JavaScript object
      are, each key reads back its own value. */
  lemma LookupReadsBack(entries: seq<(string, string)>)
    requires forall j, k :: 0 <= j < k < |entries| ==> entries[j].0 != entries[k].0
    ensures forall i :: 0 <= i < |entries| ==> Lookup(entries, entries[i].0) == Some(entries[i].1)
  {
    forall i | 0 <= i < |entries| ensures Lookup(entries, entries[i].0) == Some(entries[i].1) {
      var r := Lookup(entries, entries[i].0);
      assert r.Some?;
      var m :| 0 <= m < |entries| && entries[m] == (entries[i].0, r.value)
               && forall k :: 0 <= k < m ==> entries[k].0 != entries[i].0;
      assert m == i;
    }
  }

  /** `content[key]` for a string-valued key: `None` when the content has no
      such key (JavaScript `undefined`). */
  function Prop(c: Content, key: string): Option<string> {
    match c
    case PersonalContent(p) =>
      if key == "firstName" then Some(p.firstName)
      else if key == "lastName" then Some(p.lastName)
      else if key == "email" then Some(p.email)
      else if key == "phone" then Some(p.phone)
      else if key == "location" then Some(p.location)
      else if key == "profileImage" then p.profileImage
      else if key == "website" then p.website
      else if key == "linkedin" then p.linkedin
      else if key == "github" then p.github
      else None
    case SummaryContent(t) => if key == "text" then Some(t) else None
    case Fields(entries) => Lookup(entries, key)
    case _ => None
  }

  /** JavaScript truthiness of an optional string. */
  predicate Truthy(o: Option<string>) {
    o.Some? && o.value != ""
  }

  /** `sections.find(s => s.type === kind)`. */
  function FindKind(sections: seq<Section>, kind: SectionType): (r: Option<Section>)
    ensures r.None? <==> forall i :: 0 <= i < |sections| ==> sections[i].kind != kind
    ensures r.Some? ==> exists i :: 0 <= i < |sections| && sections[i] == r.value
                          && (forall k :: 0 <= k < i ==> sections[k].kind != kind)
    ensures r.Some? ==> r.value.kind == kind
  {
    if sections == [] then None
    else if sections[0].kind == kind then Some(sections[0])
    else
      var r := FindKind(sections[1..], kind);
      assert forall i :: 1 <= i < |sections| ==> sections[i] == sections[1..][i - 1];
      if r.Some? then
        var i :| 0 <= i < |sections| - 1 && sections[1..][i] == r.value
                 && (forall k :: 0 <= k < i ==> sections[1..][k].kind != kind);
        assert sections[i + 1] == r.value;
        assert forall k :: 0 <= k < i + 1 ==> sections[k].kind != kind;
        r
      else r
  }

  /** The comparator `(a, b) => a.order - b.order`. */
  function OrderCmp(a: Section, b: Section): int {
    a.order - b.order
  }

  function OrderKey(s: Section): int {
    s.order
  }

  predicate Visible(s: Section) {
    s.visible
  }

  /** The test for one `order` value. */
  function AtOrder(order: int): Section -> bool {
    (s: Section) => s.order == order
  }

  /** The personal record a new personal section starts with, with the keys
      the editor creates. */
  const BlankPersonal := PersonalInfo("", "", "", "", "", None, Some(""), Some(""), Some(""))

  const DefaultMetadata := Metadata(Light, 11, "Arial", 1.5, 20)

  /** The sections of the starter document. */
  const DefaultSections: seq<Section> := [
    Section("1", PersonalType, "Personal Information", 1, true, PersonalContent(BlankPersonal)),
    Section("2", SummaryType, "Professional Summary", 2, true, SummaryContent("")),
    Section("3", ExperienceType, "Work Experience", 3, true, Experiences([])),
    Section("4", EducationType, "Education", 4, true, Educations([])),
    Section("5", SkillsType, "Skills", 5, true, SkillList([])),
    Section("6", ProjectsType, "Projects", 6, true, Projects([]))
  ]

  /** The starter document; id, owner and score come from the caller. */
  function DefaultCV(id: string, userId: string): (cv: CV)
    ensures |cv.sections| == 6
    ensures forall i :: 0 <= i < 6 ==> cv.sections[i].order == i + 1 && cv.sections[i].visible
    ensures Distinct(Map(cv.sections, (s: Section) => s.id))
  {
    var cv := CV(id, userId, "My CV", "modern", DefaultSections, 0, DefaultMetadata);
    assert Map(cv.sections, (s: Section) => s.id) == ["1", "2", "3", "4", "5", "6"];
    cv
  }
}
