/** The ATS (applicant tracking system) score: seven rule-based checks over
    a document, each worth a fixed number of points, summed into a score out
    of 100, with the issues found, general suggestions chosen by score band,
    and the strengths found. The texts the analyzer obtains with
    `JSON.stringify` are given as parameters. */
module AtsAnalyzer {
  import opened Wrappers
  import opened Seqs
  import opened Strings
  import opened CvTypes

  datatype Severity = High | Medium | Low

  /** The issues the checks can report; `Category`, `SeverityOf`, `Message`
      and `Advice` give the four fields of the reported record. */
  datatype Issue =
    | PersonalMissing
    | MissingFields(fields: seq<string>)
    | LimitedKeywords(found: nat)
    | FewKeywords
    | FontSizeOutOfRange(size: int)
    | MarginsOutOfRange(margin: int)
    | MissingSections
    | TablesDetected
    | SkillGraphics
    | UnsafeFontUsed(family: string)
    | InconsistentDates

  function Category(i: Issue): string {
    match i
    case PersonalMissing | MissingFields(_) => "Personal Information"
    case LimitedKeywords(_) | FewKeywords => "Keywords"
    case MissingSections => "Structure"
    case _ => "Formatting"
  }

  function SeverityOf(i: Issue): Severity {
    match i
    case PersonalMissing | MissingFields(_) | FewKeywords | TablesDetected | UnsafeFontUsed(_) => High
    case LimitedKeywords(_) | FontSizeOutOfRange(_) | MissingSections | SkillGraphics => Medium
    case MarginsOutOfRange(_) | InconsistentDates => Low
  }

  function Message(i: Issue): string {
    match i
    case PersonalMissing => "Personal information section is missing or hidden"
    case MissingFields(_) => "Missing required contact information"
    case LimitedKeywords(n) => "Limited technical keywords (found " + NatToString(n) + ", recommended 10+)"
    case FewKeywords => "Few or no industry keywords detected"
    case FontSizeOutOfRange(size) => "Font size " + IntToString(size) + "px is outside recommended range (9-14px)"
    case MarginsOutOfRange(margin) => "Margins of " + IntToString(margin) + "px may cause parsing issues"
    case MissingSections => "Some recommended sections are missing"
    case TablesDetected => "Tables detected - ATS systems have difficulty parsing tables"
    case SkillGraphics => "Skill graphics detected - may not be parsed correctly"
    case UnsafeFontUsed(family) => "Font \"" + family + "\" is not ATS-safe"
    case InconsistentDates => "Inconsistent date formatting detected"
  }

  function Advice(i: Issue): string {
    match i
    case PersonalMissing => "Add a visible personal information section with contact details"
    case MissingFields(fields) => "Add missing fields: " + Join(fields, ", ")
    case LimitedKeywords(_) => "Add more industry-relevant keywords and skills"
    case FewKeywords => "Include relevant technical skills and industry-specific keywords"
    case FontSizeOutOfRange(_) => "Use font size between 9-14 pixels for better ATS readability"
    case MarginsOutOfRange(_) => "Use margins between 10-30 pixels"
    case MissingSections => "Consider adding: education, experience, skills sections"
    case TablesDetected => "Convert tables to simple text lists or paragraphs"
    case SkillGraphics => "Use text-based skill representation"
    case UnsafeFontUsed(_) => "Use standard fonts like Arial, Calibri, or Times New Roman"
    case InconsistentDates => "Use consistent date format (YYYY-MM-DD or MM/DD/YYYY)"
  }

  /** The strengths the checks can name. */
  datatype Strength =
    | AllPersonalFields
    | StrongKeywords(found: nat)
    | CleanFormatting
    | WellOrganized
    | NoUnfriendlyElements
    | ConsistentDates

  function StrengthText(s: Strength): string {
    match s
    case AllPersonalFields => "All required personal information fields are present"
    case StrongKeywords(n) => "Strong technical keywords found (" + NatToString(n) + ")"
    case CleanFormatting => "Clean and ATS-friendly formatting"
    case WellOrganized => "Well-organized section structure"
    case NoUnfriendlyElements => "No ATS-unfriendly elements detected"
    case ConsistentDates => "Consistent date formatting"
  }

  /** The general suggestions. */
  datatype Suggestion = Restructure | FocusOnClarity | Opportunities | MoreKeywords | WellOptimized

  function SuggestionText(s: Suggestion): string {
    match s
    case Restructure => "Consider restructuring your CV to improve ATS compatibility"
    case FocusOnClarity => "Focus on clarity and standard formatting"
    case Opportunities => "There are opportunities to improve your ATS score"
    case MoreKeywords => "Incorporate more industry-specific keywords"
    case WellOptimized => "Your CV is well-optimized for ATS systems"
  }

  /** The outcome of one check: its points, the issues it reports and the
      strengths it names, in the order they are pushed. */
  datatype Check = Check(points: int, issues: seq<Issue>, strengths: seq<Strength>)

  /** The texts derived from the document by serialisation: the visible
      sections' contents joined with spaces (before lower-casing), all the
      sections as JSON, and the content of the first skills section as
      JSON. */
  datatype AtsTexts = AtsTexts(cvText: string, sectionsJson: string, skillsJson: string)

  datatype Analysis = Analysis(
    score: int, totalPoints: int, issues: seq<Issue>, suggestions: seq<Suggestion>, strengths: seq<Strength>)

  // ---------------------------------------------------------------------
  // 1. Personal information (10 points)

  const RequiredFields := ["firstName", "lastName", "email", "phone"]

  /** `requiredFields.every(field => personalInfo[field])`. */
  predicate HasAllFields(c: Content) {
    forall i :: 0 <= i < |RequiredFields| ==> Truthy(Prop(c, RequiredFields[i]))
  }

  /** The test `f => !personalInfo[f]` of the missing-field list. */
  function MissingIn(c: Content): string -> bool {
    (f: string) => !Truthy(Prop(c, f))
  }

  function PersonalCheck(cv: CV): (r: Check)
    ensures 0 <= r.points <= 10
    ensures r.points == 10 <==>
              var s := FindKind(cv.sections, PersonalType);
              s.Some? && s.value.visible && HasAllFields(s.value.content)
    ensures r.strengths == if r.points == 10 then [AllPersonalFields] else []
    ensures r.points == 10 ==> r.issues == []
    ensures r.points != 10 ==>
              && r.points == 0 && r.strengths == [] && |r.issues| == 1
              && Category(r.issues[0]) == "Personal Information" && SeverityOf(r.issues[0]) == High
  {
    var s := FindKind(cv.sections, PersonalType);
    if s.None? || !s.value.visible then
      Check(0, [PersonalMissing], [])
    else if HasAllFields(s.value.content) then
      Check(10, [], [AllPersonalFields])
    else
      Check(0, [MissingFields(Filter(RequiredFields, MissingIn(s.value.content)))], [])
  }

  /** The required fields are the first name, the last name, the email and
      the phone; for a personal record, each must be non-empty. */
  lemma HasAllFieldsOfRecord(info: PersonalInfo)
    ensures HasAllFields(PersonalContent(info)) <==>
              info.firstName != "" && info.lastName != "" && info.email != "" && info.phone != ""
  {
    var c := PersonalContent(info);
    PersonalProps(info);
    if HasAllFields(c) {
      assert Truthy(Prop(c, RequiredFields[0])) && Truthy(Prop(c, RequiredFields[1]));
      assert Truthy(Prop(c, RequiredFields[2])) && Truthy(Prop(c, RequiredFields[3]));
    }
  }

  /** The values the keys of the required fields read from a personal record. */
  lemma PersonalProps(info: PersonalInfo)
    ensures Prop(PersonalContent(info), "firstName") == Some(info.firstName)
    ensures Prop(PersonalContent(info), "lastName") == Some(info.lastName)
    ensures Prop(PersonalContent(info), "email") == Some(info.email)
    ensures Prop(PersonalContent(info), "phone") == Some(info.phone)
  {
    assert "lastName" != "firstName" by { assert "lastName"[0] != "firstName"[0]; }
    assert "email" != "firstName" by { assert "email"[0] != "firstName"[0]; }
    assert "email" != "lastName" by { assert "email"[0] != "lastName"[0]; }
    assert "phone" != "firstName" by { assert "phone"[0] != "firstName"[0]; }
    assert "phone" != "lastName" by { assert "phone"[0] != "lastName"[0]; }
    assert "phone" != "email" by { assert "phone"[0] != "email"[0]; }
  }

  /** The first personal section earns the ten points exactly when it is
      visible and, for a personal record, has a first name, a last name, an
      email and a phone number. */
  lemma PersonalPointsForRecord(cv: CV, info: PersonalInfo)
    requires FindKind(cv.sections, PersonalType).Some?
    requires FindKind(cv.sections, PersonalType).value.content == PersonalContent(info)
    ensures PersonalCheck(cv).points == 10 <==>
              && FindKind(cv.sections, PersonalType).value.visible
              && info.firstName != "" && info.lastName != "" && info.email != "" && info.phone != ""
  {
    HasAllFieldsOfRecord(info);
  }

  // ---------------------------------------------------------------------
  // 2. Keywords (20 points)

  /** The entries of the keyword database. */
  datatype Keyword =
    // technical
    | Python | JavaScript | TypeScript | React | NodeJs | Sql | MongoDb | Aws | Docker | Kubernetes | CiCd | Git | RestApi | GraphQl
    // soft skills
    | Leadership | Communication | Teamwork | ProblemSolving | ProjectManagement | Analytics | Strategy
    // tools
    | Jira | Confluence | Slack | Figma | Adobe | Office | Salesforce | Sap
    // certifications
    | AwsCertified | AzureCertified | GoogleCloud | ScrumMaster | Pmp | Cissp

  /** The text of a keyword as the database spells it. */
  function KeywordText(k: Keyword): string {
    match k
    case Python => "python"
    case JavaScript => "javascript"
    case TypeScript => "typescript"
    case React => "react"
    case NodeJs => "nodejs"
    case Sql => "sql"
    case MongoDb => "mongodb"
    case Aws => "aws"
    case Docker => "docker"
    case Kubernetes => "kubernetes"
    case CiCd => "ci/cd"
    case Git => "git"
    case RestApi => "rest api"
    case GraphQl => "graphql"
    case Leadership => "leadership"
    case Communication => "communication"
    case Teamwork => "teamwork"
    case ProblemSolving => "problem-solving"
    case ProjectManagement => "project management"
    case Analytics => "analytics"
    case Strategy => "strategy"
    case Jira => "jira"
    case Confluence => "confluence"
    case Slack => "slack"
    case Figma => "figma"
    case Adobe => "adobe"
    case Office => "office"
    case Salesforce => "salesforce"
    case Sap => "sap"
    case AwsCertified => "aws certified"
    case AzureCertified => "azure certified"
    case GoogleCloud => "google cloud"
    case ScrumMaster => "scrum master"
    case Pmp => "pmp"
    case Cissp => "cissp"
  }

  /** The database in its order: technical, soft skills, tools,
      certifications. */
  const Keywords: seq<Keyword> := [
    Python, JavaScript, TypeScript, React, NodeJs, Sql, MongoDb, Aws, Docker, Kubernetes, CiCd, Git, RestApi, GraphQl,
    Leadership, Communication, Teamwork, ProblemSolving, ProjectManagement, Analytics, Strategy,
    Jira, Confluence, Slack, Figma, Adobe, Office, Salesforce, Sap,
    AwsCertified, AzureCertified, GoogleCloud, ScrumMaster, Pmp, Cissp
  ]

  /** The test `keyword => text.includes(keyword.toLowerCase())`. */
  predicate FoundIn(text: string, k: Keyword) {
    Includes(text, ToLower(KeywordText(k)))
  }

  function FoundInText(text: string): Keyword -> bool {
    (k: Keyword) => FoundIn(text, k)
  }

  /** `findKeywords(text)`: the keywords the text contains, in database order. */
  function FindKeywords(text: string): seq<Keyword> {
    FoundAmong(Keywords, text)
  }

  /** The keywords of `ks` the text contains, in the order of `ks`. */
  function FoundAmong(ks: seq<Keyword>, text: string): seq<Keyword> {
    if ks == [] then []
    else if FoundIn(text, Last(ks)) then FoundAmong(DropLast(ks), text) + [Last(ks)]
    else FoundAmong(DropLast(ks), text)
  }

  /** The search is the `filter` of `ks` by the test. */
  lemma {:induction false} FoundAmongIsFilter(ks: seq<Keyword>, text: string)
    ensures FoundAmong(ks, text) == Filter(ks, FoundInText(text))
  {
    if ks != [] {
      FoundAmongIsFilter(DropLast(ks), text);
    }
  }

  /** The keywords found are those of the database that occur in the text,
      in database order; there are 35 at most. */
  lemma FindKeywordsMembers(text: string)
    ensures forall k :: k in FindKeywords(text) <==> k in Keywords && Contains(text, ToLower(KeywordText(k)))
    ensures IsSubsequence(FindKeywords(text), Keywords)
    ensures |FindKeywords(text)| <= 35
  {
    FoundAmongIsFilter(Keywords, text);
    FilterSubsequence(Keywords, FoundInText(text));
    assert |Keywords| == 35;
  }

  function KeywordCheck(texts: AtsTexts): (r: Check)
    ensures var n := |FindKeywords(ToLower(texts.cvText))|;
            && (r.points == 20 <==> n >= 10)
            && (r.points == 10 <==> 5 <= n < 10)
            && (r.points == 0 <==> n < 5)
    ensures |r.issues| + |r.strengths| == 1
    ensures r.strengths == if r.points == 20 then [StrongKeywords(|FindKeywords(ToLower(texts.cvText))|)] else []
  {
    var n := |FindKeywords(ToLower(texts.cvText))|;
    if n >= 10 then
      Check(20, [], [StrongKeywords(n)])
    else if n >= 5 then
      Check(10, [LimitedKeywords(n)], [])
    else
      Check(0, [FewKeywords], [])
  }

  // ---------------------------------------------------------------------
  // 3. Formatting (15 points)

  /** `cv.metadata?.fontSize || 11`: zero reads as unset. */
  function FontSize(md: Metadata): int {
    if md.fontSize == 0 then 11 else md.fontSize
  }

  /** `cv.metadata?.margin || 20`. */
  function Margin(md: Metadata): int {
    if md.margin == 0 then 20 else md.margin
  }

  /** `checkFormatting`: one issue for a font size outside 9..14, one for a
      margin outside 10..30. */
  function FormattingIssues(md: Metadata): (r: seq<Issue>)
    ensures |r| <= 2
    ensures r == [] <==> 9 <= FontSize(md) <= 14 && 10 <= Margin(md) <= 30
    ensures |r| == 2 <==> !(9 <= FontSize(md) <= 14) && !(10 <= Margin(md) <= 30)
  {
    var size := FontSize(md);
    var margin := Margin(md);
    (if size < 9 || size > 14 then [FontSizeOutOfRange(size)] else [])
    + (if margin < 10 || margin > 30 then [MarginsOutOfRange(margin)] else [])
  }

  function FormattingCheck(md: Metadata): (r: Check)
    ensures r.issues == FormattingIssues(md)
    ensures r.points == 15 - 3 * |r.issues| && (r.points == 15 || r.points == 12 || r.points == 9)
    ensures r.strengths == if r.issues == [] then [CleanFormatting] else []
  {
    var found := FormattingIssues(md);
    if found == [] then Check(15, [], [CleanFormatting])
    else Check(Max(0, 15 - |found| * 3), found, [])
  }

  function Max(a: int, b: int): int {
    if a < b then b else a
  }

  function Min(a: int, b: int): int {
    if a < b then a else b
  }

  // ---------------------------------------------------------------------
  // 4. Section structure (15 points)

  const Recommended := [PersonalType, ExperienceType, EducationType, SkillsType]

  function KindOf(s: Section): SectionType {
    s.kind
  }

  /** `cv.sections.filter(s => s.visible).map(s => s.type)`. */
  function VisibleKinds(sections: seq<Section>): (r: seq<SectionType>)
    ensures forall t :: t in r <==> exists i :: 0 <= i < |sections| && sections[i].visible && sections[i].kind == t
  {
    var vs := Filter(sections, Visible);
    var r := Map(vs, KindOf);
    assert forall t :: t in r ==> exists i :: 0 <= i < |sections| && sections[i].visible && sections[i].kind == t by {
      forall t | t in r ensures exists i :: 0 <= i < |sections| && sections[i].visible && sections[i].kind == t {
        var j :| 0 <= j < |r| && r[j] == t;
        assert vs[j] in sections;
      }
    }
    assert forall i :: 0 <= i < |sections| && sections[i].visible ==> sections[i].kind in r by {
      forall i | 0 <= i < |sections| && sections[i].visible ensures sections[i].kind in r {
        assert sections[i] in vs;
        var j :| 0 <= j < |vs| && vs[j] == sections[i];
        assert r[j] == sections[i].kind;
      }
    }
    r
  }

  /** How many kinds of `ks` occur in `kinds`. */
  function CountPresent(ks: seq<SectionType>, kinds: seq<SectionType>): nat {
    if ks == [] then 0
    else CountPresent(DropLast(ks), kinds) + if Last(ks) in kinds then 1 else 0
  }

  /** The count is at most the number of kinds asked about, and reaches it
      exactly when every one of them occurs. */
  lemma {:induction false} CountPresentFull(ks: seq<SectionType>, kinds: seq<SectionType>)
    ensures CountPresent(ks, kinds) <= |ks|
    ensures CountPresent(ks, kinds) == |ks| <==> forall t :: t in ks ==> t in kinds
  {
    if ks != [] {
      CountPresentFull(DropLast(ks), kinds);
      SplitLast(ks);
      assert forall t :: t in ks <==> t in DropLast(ks) || t == Last(ks);
    }
  }

  /** The number of recommended kinds among the visible sections. */
  function PresentCount(sections: seq<Section>): (k: nat)
    ensures k <= 4
  {
    CountPresentFull(Recommended, VisibleKinds(sections));
    CountPresent(Recommended, VisibleKinds(sections))
  }

  /** `Math.round(3.75 * k)`: the sum is `15 * k` quarters, and rounding
      half up a non-negative number of quarters `q` gives `(q + 2) / 4`. */
  function StructurePoints(k: nat): int {
    (15 * k + 2) / 4
  }

  /** The rounded points for 0..4 recommended kinds; 12 or more only when
      all four are present. */
  lemma StructurePointsValues(k: nat)
    requires k <= 4
    ensures StructurePoints(k) == [0, 4, 8, 11, 15][k]
    ensures StructurePoints(k) >= 12 <==> k == 4
  {
  }

  /** `checkSectionStructure`: 3.75 points for every recommended kind that
      some visible section has, rounded. */
  method CheckSectionStructure(cv: CV) returns (score: int)
    ensures score == StructurePoints(PresentCount(cv.sections))
  {
    var existing := VisibleKinds(cv.sections);
    var quarters := 0;
    var i := 0;
    while i < |Recommended|
      invariant 0 <= i <= |Recommended|
      invariant quarters == 15 * CountPresent(Recommended[..i], existing)
    {
      assert DropLast(Recommended[..i + 1]) == Recommended[..i];
      if Recommended[i] in existing {
        quarters := quarters + 15;
      }
      i := i + 1;
    }
    assert Recommended[..i] == Recommended;
    score := (quarters + 2) / 4;
  }

  /** Every recommended kind has a visible section. */
  predicate AllRecommendedVisible(sections: seq<Section>) {
    forall t :: t in Recommended ==> t in VisibleKinds(sections)
  }

  /** The structure scores 12 or more exactly when every recommended kind has
      a visible section. */
  lemma StructureStrengthIff(sections: seq<Section>)
    ensures StructurePoints(PresentCount(sections)) >= 12 <==> AllRecommendedVisible(sections)
  {
    CountPresentFull(Recommended, VisibleKinds(sections));
    StructurePointsValues(PresentCount(sections));
  }

  function StructureCheck(cv: CV): (r: Check)
    ensures 0 <= r.points <= 15
    ensures |r.issues| + |r.strengths| == 1
    ensures r.strengths == if AllRecommendedVisible(cv.sections) then [WellOrganized] else []
  {
    var points := StructurePoints(PresentCount(cv.sections));
    StructurePointsValues(PresentCount(cv.sections));
    StructureStrengthIff(cv.sections);
    if points >= 12 then Check(points, [], [WellOrganized])
    else Check(points, [MissingSections], [])
  }

  // ---------------------------------------------------------------------
  // 5. Content quality (15 points)

  /** `experiences.some(e => e.description && e.description.length > 50)`. */
  predicate HasLongDescription(items: seq<ItemView>) {
    exists i :: 0 <= i < |items| && |items[i].description| > 50
  }

  /** A visible section worth five points: experiences with a long
      description, any education, or five or more skills in a list. */
  predicate Contributes(s: Section) {
    && s.visible
    && ((s.kind == ExperienceType && IsArray(s.content) && ArrayLength(s.content) > 0 && HasLongDescription(Items(s.content)))
        || (s.kind == EducationType && IsArray(s.content) && ArrayLength(s.content) > 0)
        || (s.kind == SkillsType && IsArray(s.content) && ArrayLength(s.content) >= 5))
  }

  /** Five points for every section that contributes. */
  function QualitySum(sections: seq<Section>): nat {
    if sections == [] then 0
    else QualitySum(DropLast(sections)) + (if Contributes(Last(sections)) then 5 else 0)
  }

  /** The sum is five points per contributing section. */
  lemma {:induction false} QualitySumCounts(sections: seq<Section>)
    ensures QualitySum(sections) == 5 * |Filter(sections, Contributes)|
  {
    if sections != [] {
      QualitySumCounts(DropLast(sections));
    }
  }

  /** `checkContentQuality`: the points of the visible sections, capped at 15. */
  method CheckContentQuality(cv: CV) returns (score: int)
    ensures score == Min(15, QualitySum(cv.sections))
  {
    var sections := cv.sections;
    var sum := 0;
    var i := 0;
    while i < |sections|
      invariant 0 <= i <= |sections|
      invariant sum == QualitySum(sections[..i])
    {
      var s := sections[i];
      assert DropLast(sections[..i + 1]) == sections[..i];
      if s.visible {
        if s.kind == ExperienceType {
          if IsArray(s.content) && ArrayLength(s.content) > 0 {
            if HasLongDescription(Items(s.content)) {
              sum := sum + 5;
            }
          }
        } else if s.kind == EducationType {
          if IsArray(s.content) && ArrayLength(s.content) > 0 {
            sum := sum + 5;
          }
        } else if s.kind == SkillsType {
          if IsArray(s.content) && ArrayLength(s.content) >= 5 {
            sum := sum + 5;
          }
        }
      }
      i := i + 1;
    }
    assert sections[..i] == sections;
    score := Min(15, sum);
  }

  /** Content quality never goes beyond 15 and a document without a
      contributing section scores none. */
  lemma ContentQualityBounds(sections: seq<Section>)
    ensures var q := Min(15, QualitySum(sections)); q == 0 || q == 5 || q == 10 || q == 15
    ensures (forall s :: s in sections ==> !Contributes(s)) ==> QualitySum(sections) == 0
  {
    QualitySumCounts(sections);
    if forall s :: s in sections ==> !Contributes(s) {
      NoContributorScoresNone(sections);
    }
  }

  lemma {:induction false} NoContributorScoresNone(sections: seq<Section>)
    requires forall s :: s in sections ==> !Contributes(s)
    ensures QualitySum(sections) == 0
  {
    if sections != [] {
      assert Last(sections) in sections;
      assert forall s :: s in DropLast(sections) ==> s in sections;
      NoContributorScoresNone(DropLast(sections));
    }
  }

  // ---------------------------------------------------------------------
  // 6. ATS-unfriendly elements (10 points)

  const UnsafeFonts := ["wingdings", "symbol", "webdings"]

  /** `cv.metadata?.fontFamily || 'Arial'`. */
  function FontFamily(md: Metadata): string {
    if md.fontFamily == "" then "Arial" else md.fontFamily
  }

  /** `atsUnsafeFonts.some(f => fontFamily.toLowerCase().includes(f))`. */
  predicate UnsafeFont(family: string) {
    exists i :: 0 <= i < |UnsafeFonts| && Includes(ToLower(family), UnsafeFonts[i])
  }

  /** `checkATSUnfriendlyElements`: tables anywhere, images in the skills,
      an unsafe font. */
  function UnfriendlyIssues(cv: CV, texts: AtsTexts): (r: seq<Issue>)
    ensures |r| <= 3
    ensures r == [] <==>
              && !Contains(texts.sectionsJson, "table")
              && !(FindKind(cv.sections, SkillsType).Some? && Contains(texts.skillsJson, "image"))
              && !UnsafeFont(FontFamily(cv.metadata))
  {
    TableCheckIsOneSearch(texts.sectionsJson);
    var family := FontFamily(cv.metadata);
    (if Includes(texts.sectionsJson, "<table") || Includes(texts.sectionsJson, "table") then [TablesDetected] else [])
    + (if FindKind(cv.sections, SkillsType).Some? && Includes(texts.skillsJson, "image") then [SkillGraphics] else [])
    + (if UnsafeFont(family) then [UnsafeFontUsed(family)] else [])
  }

  /** The search for `"<table"` is subsumed by the search for `"table"`. */
  lemma TableCheckIsOneSearch(text: string)
    ensures Contains(text, "<table") ==> Contains(text, "table")
  {
    if Contains(text, "<table") {
      ContainsTail(text, "<table");
      assert "<table"[1..] == "table";
    }
  }

  function UnfriendlyCheck(cv: CV, texts: AtsTexts): (r: Check)
    ensures r.issues == UnfriendlyIssues(cv, texts)
    ensures r.points == 10 - 2 * |r.issues| && (r.points == 10 || r.points == 8 || r.points == 6 || r.points == 4)
    ensures r.strengths == if r.issues == [] then [NoUnfriendlyElements] else []
  {
    var found := UnfriendlyIssues(cv, texts);
    if found == [] then Check(10, [], [NoUnfriendlyElements])
    else Check(Max(0, 10 - |found| * 2), found, [])
  }

  // ---------------------------------------------------------------------
  // 7. Date formats (10 points)

  predicate AllDigits(s: string) {
    forall i :: 0 <= i < |s| ==> IsDigit(s[i])
  }

  /** `/^\d{4}-\d{2}-\d{2}$|^\d{1,2}\/\d{1,2}\/\d{4}$/.test(s)`. */
  predicate DateLike(s: string) {
    || (|s| == 10 && AllDigits(s[..4]) && s[4] == '-' && AllDigits(s[5..7]) && s[7] == '-' && AllDigits(s[8..]))
    || (var parts := Split(s, '/');
        && |parts| == 3
        && 1 <= |parts[0]| <= 2 && 1 <= |parts[1]| <= 2 && |parts[2]| == 4
        && AllDigits(parts[0]) && AllDigits(parts[1]) && AllDigits(parts[2]))
  }

  /** An item with a date of which neither end is in a recognised format. */
  predicate Inconsistent(item: ItemView) {
    (item.startDate != "" || item.endDate != "") && !DateLike(item.startDate) && !DateLike(item.endDate)
  }

  /** The number of inconsistently dated items. */
  function InconsistentItems(items: seq<ItemView>): nat {
    if items == [] then 0
    else InconsistentItems(DropLast(items)) + if Inconsistent(Last(items)) then 1 else 0
  }

  /** An inconsistently dated item is counted. */
  lemma {:induction false} InconsistentItemCounted(items: seq<ItemView>, item: ItemView)
    requires item in items && Inconsistent(item)
    ensures InconsistentItems(items) > 0
  {
    if item != Last(items) {
      SplitLast(items);
      assert item in DropLast(items);
      InconsistentItemCounted(DropLast(items), item);
    }
  }

  /** The inconsistently dated items of all array contents, every section
      counted whatever its visibility. */
  function InconsistentCount(sections: seq<Section>): nat {
    if sections == [] then 0
    else InconsistentCount(DropLast(sections)) + InconsistentItems(Items(Last(sections).content))
  }

  /** The inner `forEach` of `checkDateFormatting`: counts the
      inconsistently dated items of one content. */
  method CountInconsistent(items: seq<ItemView>) returns (n: nat)
    ensures n == InconsistentItems(items)
  {
    n := 0;
    var j := 0;
    while j < |items|
      invariant 0 <= j <= |items|
      invariant n == InconsistentItems(items[..j])
    {
      assert DropLast(items[..j + 1]) == items[..j];
      if Inconsistent(items[j]) {
        n := n + 1;
      }
      j := j + 1;
    }
    assert items[..j] == items;
  }

  /** `checkDateFormatting`: the inconsistent items are counted over every
      item of every array content, and any gives the one issue. */
  method CheckDateFormatting(cv: CV) returns (issues: seq<Issue>)
    ensures issues == if InconsistentCount(cv.sections) > 0 then [InconsistentDates] else []
  {
    var sections := cv.sections;
    var count := 0;
    var i := 0;
    while i < |sections|
      invariant 0 <= i <= |sections|
      invariant count == InconsistentCount(sections[..i])
    {
      var n := CountInconsistent(Items(sections[i].content));
      count := count + n;
      assert DropLast(sections[..i + 1]) == sections[..i];
      i := i + 1;
    }
    assert sections[..i] == sections;
    issues := if count > 0 then [InconsistentDates] else [];
  }

  function DateCheck(cv: CV): (r: Check)
    ensures r.points == 10 <==> r.issues == []
    ensures r.points != 10 ==> r.points == 0 && r.issues == [InconsistentDates]
    ensures r.strengths == if r.points == 10 then [ConsistentDates] else []
  {
    if InconsistentCount(cv.sections) > 0 then Check(0, [InconsistentDates], [])
    else Check(10, [], [ConsistentDates])
  }

  /** The month inputs of the editor store "YYYY-MM", which neither
      recognised format accepts. */
  lemma MonthTextNeverDateLike(s: string)
    requires |s| == 7
    ensures !DateLike(s)
  {
    var parts := Split(s, '/');
    if |parts| == 3 && 1 <= |parts[0]| && |parts[1]| <= 2 && |parts[2]| == 4 {
      SplitLength(s, '/');
      assert |Join(parts, "/")| == |parts[0]| + 1 + |parts[1]| + 1 + |parts[2]| by {
        assert parts[1..][1..] == [parts[2]];
        assert Join(parts[1..][1..], "/") == parts[2];
        assert Join(parts[1..], "/") == parts[1] + "/" + parts[2];
      }
    }
  }

  /** The pieces of a split and the separators between them make up the
      string. */
  lemma SplitLength(s: string, c: char)
    ensures |Join(Split(s, c), [c])| == |s|
  {
    JoinSplit(s, c);
  }

  /** Hence one item dated from the month inputs (a "YYYY-MM" start date and
      an end date that is empty or also "YYYY-MM") costs the document all
      ten date points. */
  lemma {:induction false} MonthDatedItemLosesDatePoints(cv: CV, k: nat, item: ItemView)
    requires k < |cv.sections| && item in Items(cv.sections[k].content)
    requires |item.startDate| == 7 && (item.endDate == "" || |item.endDate| == 7)
    ensures DateCheck(cv).points == 0
  {
    MonthTextNeverDateLike(item.startDate);
    if item.endDate != "" {
      MonthTextNeverDateLike(item.endDate);
    }
    assert Inconsistent(item);
    InconsistentCountPositive(cv.sections, k, item);
  }

  lemma {:induction false} InconsistentCountPositive(sections: seq<Section>, k: nat, item: ItemView)
    requires k < |sections| && item in Items(sections[k].content) && Inconsistent(item)
    ensures InconsistentCount(sections) > 0
    decreases |sections|
  {
    if k == |sections| - 1 {
      InconsistentItemCounted(Items(Last(sections).content), item);
    } else {
      InconsistentCountPositive(DropLast(sections), k, item);
    }
  }

  // ---------------------------------------------------------------------
  // The analysis

  /** The general suggestions for a final score. */
  function Suggestions(score: int): (r: seq<Suggestion>)
    ensures 1 <= |r| <= 2
  {
    if score < 50 then [Restructure, FocusOnClarity]
    else if score < 75 then [Opportunities, MoreKeywords]
    else [WellOptimized]
  }

  /** `slice(0, n)`. */
  function Take<T>(s: seq<T>, n: nat): (r: seq<T>)
    ensures |r| == Min(n, |s|) && r == s[..|r|]
  {
    if |s| <= n then s else s[..n]
  }

  /** Content quality as a check: points only. */
  function ContentCheck(cv: CV): (r: Check)
    ensures 0 <= r.points <= 15 && r.issues == [] && r.strengths == []
  {
    ContentQualityBounds(cv.sections);
    Check(Min(15, QualitySum(cv.sections)), [], [])
  }

  /** The outcomes of the seven checks. */
  datatype Checks = Checks(
    personal: Check, keywords: Check, formatting: Check, structure: Check, content: Check,
    unfriendly: Check, dates: Check)

  function RunChecks(cv: CV, texts: AtsTexts): Checks {
    Checks(PersonalCheck(cv), KeywordCheck(texts), FormattingCheck(cv.metadata), StructureCheck(cv),
           ContentCheck(cv), UnfriendlyCheck(cv, texts), DateCheck(cv))
  }

  /** The running state of the analysis: `currentScore`, `issues` and
      `strengths`. */
  datatype Tally = Tally(currentScore: int, issues: seq<Issue>, strengths: seq<Strength>)

  /** One check's contribution to the running state. */
  function Add(t: Tally, c: Check): Tally {
    Tally(t.currentScore + c.points, t.issues + c.issues, t.strengths + c.strengths)
  }

  /** The running state after all seven checks. */
  function Tallied(cs: Checks): Tally {
    Add(Add(Add(Add(Add(Add(Add(Tally(0, [], []), cs.personal), cs.keywords), cs.formatting),
                        cs.structure), cs.content), cs.unfriendly), cs.dates)
  }

  /** The result built from a final running state: the score capped at
      100, the suggestions of its band, and the lists cut to 10, 5 and 5. */
  function Finish(t: Tally): Analysis {
    var score := Min(100, t.currentScore);
    Analysis(score, 100, Take(t.issues, 10), Take(Suggestions(score), 5), Take(t.strengths, 5))
  }

  /** The result built from the checks' outcomes. */
  function Combine(cs: Checks): Analysis {
    Finish(Tallied(cs))
  }

  /** The result of `analyzeCVForATS`. */
  function Analyze(cv: CV, texts: AtsTexts): Analysis {
    Combine(RunChecks(cv, texts))
  }

  // The steps of `analyzeCVForATS`, one per numbered check.

  method PersonalStep(cv: CV, t: Tally) returns (t': Tally)
    ensures t' == Add(t, PersonalCheck(cv))
  {
    t' := t;
    var personal := FindKind(cv.sections, PersonalType);
    if personal.None? || !personal.value.visible {
      t' := t'.(issues := t'.issues + [PersonalMissing]);
    } else {
      var info := personal.value.content;
      if HasAllFields(info) {
        t' := t'.(currentScore := t'.currentScore + 10);
        t' := t'.(strengths := t'.strengths + [AllPersonalFields]);
      } else {
        t' := t'.(issues := t'.issues + [MissingFields(Filter(RequiredFields, MissingIn(info)))]);
      }
    }
  }

  method KeywordStep(texts: AtsTexts, t: Tally) returns (t': Tally)
    ensures t' == Add(t, KeywordCheck(texts))
  {
    var currentScore, issues, strengths := t.currentScore, t.issues, t.strengths;
    var found := FindKeywords(ToLower(texts.cvText));
    if |found| >= 10 {
      currentScore := currentScore + 20;
      strengths := strengths + [StrongKeywords(|found|)];
    } else if |found| >= 5 {
      currentScore := currentScore + 10;
      issues := issues + [LimitedKeywords(|found|)];
    } else {
      issues := issues + [FewKeywords];
    }
    t' := Tally(currentScore, issues, strengths);
    assert t.issues + [] == t.issues && t.strengths + [] == t.strengths;
  }

  method FormattingStep(cv: CV, t: Tally) returns (t': Tally)
    ensures t' == Add(t, FormattingCheck(cv.metadata))
  {
    t' := t;
    var formatIssues := FormattingIssues(cv.metadata);
    if formatIssues == [] {
      t' := t'.(currentScore := t'.currentScore + 15);
      t' := t'.(strengths := t'.strengths + [CleanFormatting]);
    } else {
      t' := t'.(issues := t'.issues + formatIssues);
      t' := t'.(currentScore := t'.currentScore + Max(0, 15 - |formatIssues| * 3));
    }
  }

  method StructureStep(cv: CV, t: Tally) returns (t': Tally)
    ensures t' == Add(t, StructureCheck(cv))
  {
    var structureScore := CheckSectionStructure(cv);
    t' := t.(currentScore := t.currentScore + structureScore);
    if structureScore >= 12 {
      t' := t'.(strengths := t'.strengths + [WellOrganized]);
    } else {
      t' := t'.(issues := t'.issues + [MissingSections]);
    }
  }

  method ContentStep(cv: CV, t: Tally) returns (t': Tally)
    ensures t' == Add(t, ContentCheck(cv))
  {
    var contentScore := CheckContentQuality(cv);
    t' := t.(currentScore := t.currentScore + contentScore);
  }

  method UnfriendlyStep(cv: CV, texts: AtsTexts, t: Tally) returns (t': Tally)
    ensures t' == Add(t, UnfriendlyCheck(cv, texts))
  {
    t' := t;
    var unfriendly := UnfriendlyIssues(cv, texts);
    if unfriendly == [] {
      t' := t'.(currentScore := t'.currentScore + 10);
      t' := t'.(strengths := t'.strengths + [NoUnfriendlyElements]);
    } else {
      t' := t'.(issues := t'.issues + unfriendly);
      t' := t'.(currentScore := t'.currentScore + Max(0, 10 - |unfriendly| * 2));
    }
  }

  method DateStep(cv: CV, t: Tally) returns (t': Tally)
    ensures t' == Add(t, DateCheck(cv))
  {
    t' := t;
    var dateIssues := CheckDateFormatting(cv);
    if dateIssues == [] {
      t' := t'.(currentScore := t'.currentScore + 10);
      t' := t'.(strengths := t'.strengths + [ConsistentDates]);
    } else {
      t' := t'.(issues := t'.issues + dateIssues);
    }
  }

  /** `analyzeCVForATS`: the checks run in turn on the running state, then
      the score is capped, the suggestions of its band are pushed, and the
      lists are cut. */
  method AnalyzeCVForATS(cv: CV, texts: AtsTexts) returns (r: Analysis)
    ensures r == Analyze(cv, texts)
  {
    var t := Tally(0, [], []);
    t := PersonalStep(cv, t);
    t := KeywordStep(texts, t);
    t := FormattingStep(cv, t);
    t := StructureStep(cv, t);
    t := ContentStep(cv, t);
    t := UnfriendlyStep(cv, texts, t);
    t := DateStep(cv, t);
    assert t == Tallied(RunChecks(cv, texts));
    r := FinishStep(t);
  }

  /** The end of `analyzeCVForATS`: the score is capped, the suggestions of
      its band are pushed, and the lists are cut. */
  method FinishStep(t: Tally) returns (r: Analysis)
    ensures r == Finish(t)
  {
    var finalScore := Min(100, t.currentScore);
    var suggestions: seq<Suggestion> := [];
    if finalScore < 50 {
      suggestions := suggestions + [Restructure];
      suggestions := suggestions + [FocusOnClarity];
    } else if finalScore < 75 {
      suggestions := suggestions + [Opportunities];
      suggestions := suggestions + [MoreKeywords];
    } else {
      suggestions := suggestions + [WellOptimized];
    }
    assert suggestions == Suggestions(finalScore);
    r := Analysis(finalScore, 100, Take(t.issues, 10), Take(suggestions, 5), Take(t.strengths, 5));
  }

  // ---------------------------------------------------------------------
  // Properties of the analysis

  // What each check's contract guarantees of its outcome, stated on the
  // outcome alone.

  predicate PersonalShaped(c: Check) {
    && (c.points == 0 || c.points == 10)
    && c.strengths == (if c.points == 10 then [AllPersonalFields] else [])
    && |c.issues| == (if c.points == 10 then 0 else 1)
  }

  predicate KeywordShaped(c: Check) {
    && (c.points == 0 || c.points == 10 || c.points == 20)
    && |c.issues| + |c.strengths| == 1
    && (c.strengths == [] <==> c.points != 20)
    && (forall s :: s in c.strengths ==> s.StrongKeywords?)
  }

  predicate FormattingShaped(c: Check) {
    && |c.issues| <= 2 && c.points == 15 - 3 * |c.issues|
    && c.strengths == (if c.issues == [] then [CleanFormatting] else [])
  }

  predicate StructureShaped(c: Check) {
    && 0 <= c.points <= 15 && |c.issues| + |c.strengths| == 1
    && (c.strengths == [] || c.strengths == [WellOrganized])
  }

  predicate ContentShaped(c: Check) {
    0 <= c.points <= 15 && c.issues == [] && c.strengths == []
  }

  predicate UnfriendlyShaped(c: Check) {
    && |c.issues| <= 3 && c.points == 10 - 2 * |c.issues|
    && c.strengths == (if c.issues == [] then [NoUnfriendlyElements] else [])
  }

  predicate DateShaped(c: Check) {
    && (c.points == 0 || c.points == 10)
    && c.strengths == (if c.points == 10 then [ConsistentDates] else [])
    && c.issues == (if c.points == 10 then [] else [InconsistentDates])
  }

  predicate Shaped(cs: Checks) {
    && PersonalShaped(cs.personal) && KeywordShaped(cs.keywords) && FormattingShaped(cs.formatting)
    && StructureShaped(cs.structure) && ContentShaped(cs.content) && UnfriendlyShaped(cs.unfriendly)
    && DateShaped(cs.dates)
  }

  lemma KeywordCheckShaped(texts: AtsTexts)
    ensures KeywordShaped(KeywordCheck(texts))
  {
    var kw := KeywordCheck(texts);
    assert forall s :: s in kw.strengths ==> s.StrongKeywords?;
  }

  /** Every outcome of the seven checks has its shape. */
  lemma RunChecksShaped(cv: CV, texts: AtsTexts)
    ensures Shaped(RunChecks(cv, texts))
  {
    assert PersonalShaped(PersonalCheck(cv));
    KeywordCheckShaped(texts);
    assert FormattingShaped(FormattingCheck(cv.metadata));
    assert StructureShaped(StructureCheck(cv));
    assert ContentShaped(ContentCheck(cv));
    assert UnfriendlyShaped(UnfriendlyCheck(cv, texts));
    assert DateShaped(DateCheck(cv));
  }

  /** The running score is the sum of the check points; the maxima 10, 20,
      15, 15, 15, 10 and 10 add up to 95, so the cap at 100 never bites. */
  lemma {:induction false} CombineScore(cs: Checks)
    requires Shaped(cs)
    ensures Tallied(cs).currentScore == cs.personal.points + cs.keywords.points + cs.formatting.points
              + cs.structure.points + cs.content.points + cs.unfriendly.points + cs.dates.points
    ensures 0 <= Combine(cs).score <= 95 && Combine(cs).score == Tallied(cs).currentScore
    ensures Combine(cs).totalPoints == 100
  {
    TalliedParts(cs);
  }

  /** The running state adds up the checks' points and concatenates their
      issues and their strengths, in check order. */
  lemma TalliedParts(cs: Checks)
    ensures Tallied(cs).currentScore == cs.personal.points + cs.keywords.points + cs.formatting.points
              + cs.structure.points + cs.content.points + cs.unfriendly.points + cs.dates.points
    ensures Tallied(cs).issues == cs.personal.issues + cs.keywords.issues + cs.formatting.issues
              + cs.structure.issues + cs.content.issues + cs.unfriendly.issues + cs.dates.issues
    ensures Tallied(cs).strengths == cs.personal.strengths + cs.keywords.strengths + cs.formatting.strengths
              + cs.structure.strengths + cs.content.strengths + cs.unfriendly.strengths + cs.dates.strengths
  {
  }

  /** At most nine issues arise (1 + 1 + 2 + 1 + 3 + 1), so the cut to ten
      keeps them all, in the order the checks report them. */
  lemma {:induction false} CombineIssues(cs: Checks)
    requires Shaped(cs)
    ensures Tallied(cs).issues == cs.personal.issues + cs.keywords.issues + cs.formatting.issues
              + cs.structure.issues + cs.unfriendly.issues + cs.dates.issues
    ensures |Tallied(cs).issues| <= 9
    ensures Combine(cs).issues == Tallied(cs).issues
  {
    TalliedParts(cs);
    var front := cs.personal.issues + cs.keywords.issues + cs.formatting.issues + cs.structure.issues;
    assert front + cs.content.issues == front;
  }

  /** The suggestions are those of the band the final score falls in. */
  lemma CombineBands(cs: Checks)
    ensures var a := Combine(cs);
            && (a.score < 50 ==> a.suggestions == [Restructure, FocusOnClarity])
            && (50 <= a.score < 75 ==> a.suggestions == [Opportunities, MoreKeywords])
            && (75 <= a.score ==> a.suggestions == [WellOptimized])
  {
  }

  /** The strengths the running state collects: those of the six checks
      that can name one, in check order, the last the dates' one. */
  lemma {:induction false} TalliedStrengths(cs: Checks)
    requires Shaped(cs)
    ensures Tallied(cs).strengths == cs.personal.strengths + cs.keywords.strengths + cs.formatting.strengths
              + cs.structure.strengths + cs.unfriendly.strengths + cs.dates.strengths
  {
    TalliedParts(cs);
    var front := cs.personal.strengths + cs.keywords.strengths + cs.formatting.strengths + cs.structure.strengths;
    assert front + cs.content.strengths == front;
  }

  /** Six checks can each name a strength, so at most six arise, and up to
      five are kept whole. */
  lemma {:induction false} CombineStrengths(cs: Checks)
    requires Shaped(cs)
    ensures |Tallied(cs).strengths| <= 6
    ensures |Tallied(cs).strengths| <= 5 ==> Combine(cs).strengths == Tallied(cs).strengths
  {
    TalliedStrengths(cs);
  }

  /** When all six checks name their strength, six arise, the date
      consistency one last. */
  lemma {:induction false} AllSixStrengths(cs: Checks)
    requires Shaped(cs)
    requires cs.personal.points == 10 && cs.keywords.points == 20 && cs.formatting.issues == []
    requires cs.structure.strengths != [] && cs.unfriendly.issues == [] && cs.dates.points == 10
    ensures |Tallied(cs).strengths| == 6 && ConsistentDates !in Tallied(cs).strengths[..5]
  {
    TalliedStrengths(cs);
    var k := cs.keywords.strengths[0];
    assert cs.keywords.strengths == [k] && k.StrongKeywords?;
    assert cs.structure.strengths == [WellOrganized];
    var five := [AllPersonalFields, k, CleanFormatting, WellOrganized, NoUnfriendlyElements];
    assert Tallied(cs).strengths == five + [ConsistentDates];
    assert Tallied(cs).strengths[..5] == five;
  }

  /** So the cut to five drops the last, the date consistency strength. */
  lemma {:induction false} CombineAllStrengths(cs: Checks)
    requires Shaped(cs)
    requires cs.personal.points == 10 && cs.keywords.points == 20 && cs.formatting.issues == []
    requires cs.structure.strengths != [] && cs.unfriendly.issues == [] && cs.dates.points == 10
    ensures |Combine(cs).strengths| == 5 && ConsistentDates !in Combine(cs).strengths
  {
    AllSixStrengths(cs);
    assert Combine(cs).strengths == Tallied(cs).strengths[..5];
  }

  /** The score is the sum of the points of the seven checks, between 0 and
      95. */
  lemma ScoreBounds(cv: CV, texts: AtsTexts)
    ensures Analyze(cv, texts).score ==
              PersonalCheck(cv).points + KeywordCheck(texts).points + FormattingCheck(cv.metadata).points
              + StructureCheck(cv).points + ContentCheck(cv).points + UnfriendlyCheck(cv, texts).points
              + DateCheck(cv).points
    ensures 0 <= Analyze(cv, texts).score <= 95
    ensures Analyze(cv, texts).totalPoints == 100
  {
    RunChecksShaped(cv, texts);
    CombineScore(RunChecks(cv, texts));
  }

  /** Every issue the checks report is returned, in check order. */
  lemma NoIssueDropped(cv: CV, texts: AtsTexts)
    ensures Analyze(cv, texts).issues ==
              PersonalCheck(cv).issues + KeywordCheck(texts).issues + FormattingCheck(cv.metadata).issues
              + StructureCheck(cv).issues + UnfriendlyCheck(cv, texts).issues + DateCheck(cv).issues
    ensures |Analyze(cv, texts).issues| <= 9
  {
    RunChecksShaped(cv, texts);
    CombineIssues(RunChecks(cv, texts));
  }

  /** The suggestion band follows the score: below 50, below 75, or above. */
  lemma SuggestionBands(cv: CV, texts: AtsTexts)
    ensures var a := Analyze(cv, texts);
            && (a.score < 50 ==> a.suggestions == [Restructure, FocusOnClarity])
            && (50 <= a.score < 75 ==> a.suggestions == [Opportunities, MoreKeywords])
            && (75 <= a.score ==> a.suggestions == [WellOptimized])
  {
    CombineBands(RunChecks(cv, texts));
  }

  /** With a complete visible personal section, ten or more keywords, clean
      formatting, every recommended kind visible, no unfriendly element and
      consistent dates, six strengths arise and the date consistency one is
      cut. */
  lemma DateStrengthDropped(cv: CV, texts: AtsTexts)
    requires PersonalCheck(cv).points == 10
    requires KeywordCheck(texts).points == 20
    requires FormattingCheck(cv.metadata).issues == []
    requires AllRecommendedVisible(cv.sections)
    requires UnfriendlyCheck(cv, texts).issues == []
    requires DateCheck(cv).points == 10
    ensures |Analyze(cv, texts).strengths| == 5
    ensures ConsistentDates !in Analyze(cv, texts).strengths
  {
    RunChecksShaped(cv, texts);
    CombineAllStrengths(RunChecks(cv, texts));
  }

  /** Fewer than six strengths are kept whole. */
  lemma StrengthsKept(cv: CV, texts: AtsTexts)
    ensures |Tallied(RunChecks(cv, texts)).strengths| <= 6
    ensures |Tallied(RunChecks(cv, texts)).strengths| <= 5 ==>
              Analyze(cv, texts).strengths == Tallied(RunChecks(cv, texts)).strengths
  {
    RunChecksShaped(cv, texts);
    CombineStrengths(RunChecks(cv, texts));
  }
}
