/** The plain-text export of a CV: every visible section in `order`, each
    under a banner with its upper-cased title, list items as short blocks
    of lines, record contents as `key: value` lines. */
module PdfGenerator {
  import opened Wrappers
  import opened Seqs
  import opened Strings
  import opened Sorting
  import opened CvTypes

  /** The bullet the exporter writes: the three characters the UTF-8 bytes
      of U+2022 turn into when read as Windows-1252, then a space. */
  const WrittenBullet: string := "\U{E2}\U{20AC}\U{A2} "

  /** The bullet meant: U+2022 and a space. */
  const Bullet: string := "\U{2022} "

  /** JavaScript `a || b` on two strings. */
  function Or(a: string, b: string): string {
    if a != "" then a else b
  }

  /** `item.title || item.jobTitle || item.name`. */
  function Heading(item: ItemView): string {
    Or(Or(item.title, item.jobTitle), item.name)
  }

  /** `item.company || item.school || item.issuer`. */
  function Org(item: ItemView): string {
    Or(Or(item.company, item.school), item.issuer)
  }

  /** `item.endDate || (item.currentlyWorking ? 'Present' : 'Current')`. */
  function EndText(item: ItemView): string {
    Or(item.endDate, if item.currentlyWorking then "Present" else "Current")
  }

  /** `item.description || item.location`. */
  function Detail(item: ItemView): string {
    Or(item.description, item.location)
  }

  /** `formatItem` with the given bullet: up to four lines, each ended by a
      newline and each written only when its value is not empty. */
  function FormatItemWith(bullet: string, item: ItemView): string {
    (if Heading(item) != "" then bullet + Heading(item) + "\n" else "")
    + (if Org(item) != "" then "  " + Org(item) + "\n" else "")
    + (if item.startDate != "" then "  " + item.startDate + " - " + EndText(item) + "\n" else "")
    + (if Detail(item) != "" then "  " + Detail(item) + "\n" else "")
  }

  /** `formatItem` as the code has it, with the misencoded bullet. */
  function FormatItemAsWritten(item: ItemView): string {
    FormatItemWith(WrittenBullet, item)
  }

  /** `formatItem` with the bullet meant. */
  function FormatItem(item: ItemView): string {
    FormatItemWith(Bullet, item)
  }

  /** The lines of an item block, without their newlines: the heading
      after the bullet, the organisation, the dates, the detail; each only
      when its value is present. */
  function ItemLines(bullet: string, item: ItemView): (r: seq<string>)
    ensures |r| <= 4
    ensures r == [] <==> Heading(item) == "" && Org(item) == "" && item.startDate == "" && Detail(item) == ""
  {
    (if Heading(item) != "" then [bullet + Heading(item)] else [])
    + (if Org(item) != "" then ["  " + Org(item)] else [])
    + (if item.startDate != "" then ["  " + item.startDate + " - " + EndText(item)] else [])
    + (if Detail(item) != "" then ["  " + Detail(item)] else [])
  }

  /** Lines each followed by a newline. */
  function Terminated(lines: seq<string>): string {
    if lines == [] then "" else lines[0] + "\n" + Terminated(lines[1..])
  }

  lemma {:induction false} TerminatedConcat(a: seq<string>, b: seq<string>)
    ensures Terminated(a + b) == Terminated(a) + Terminated(b)
  {
    if a != [] {
      assert (a + b)[1..] == a[1..] + b;
      TerminatedConcat(a[1..], b);
    } else {
      assert a + b == b;
    }
  }

  /** Newline-ended lines are the join of the lines and one empty line. */
  lemma {:induction false} TerminatedJoin(lines: seq<string>)
    ensures Terminated(lines) == Join(lines + [""], "\n")
  {
    if lines != [] {
      assert (lines + [""])[1..] == lines[1..] + [""];
      TerminatedJoin(lines[1..]);
    }
  }

  lemma TerminatedOne(x: seq<string>)
    requires |x| <= 1
    ensures Terminated(x) == if x == [] then "" else x[0] + "\n"
  {
    if x != [] {
      assert x[1..] == [];
    }
  }

  /** An item block is its lines, each ended by a newline. */
  lemma ItemBlockTerminated(bullet: string, item: ItemView)
    ensures FormatItemWith(bullet, item) == Terminated(ItemLines(bullet, item))
  {
    var a := if Heading(item) != "" then [bullet + Heading(item)] else [];
    var b := if Org(item) != "" then ["  " + Org(item)] else [];
    var c := if item.startDate != "" then ["  " + item.startDate + " - " + EndText(item)] else [];
    var d := if Detail(item) != "" then ["  " + Detail(item)] else [];
    TerminatedOne(a);
    TerminatedOne(b);
    TerminatedOne(c);
    TerminatedOne(d);
    TerminatedConcat(a, b);
    TerminatedConcat(a + b, c);
    TerminatedConcat(a + b + c, d);
  }

  /** No newline in any string field an item block shows. */
  predicate OneLineFields(item: ItemView) {
    && '\n' !in item.title && '\n' !in item.jobTitle && '\n' !in item.name
    && '\n' !in item.company && '\n' !in item.school && '\n' !in item.issuer
    && '\n' !in item.startDate && '\n' !in item.endDate
    && '\n' !in item.description && '\n' !in item.location
  }

  /** Split at its newlines, an item block gives back exactly its lines,
      then the empty rest after the last newline. */
  lemma FormatItemLines(bullet: string, item: ItemView)
    requires '\n' !in bullet && OneLineFields(item)
    ensures Split(FormatItemWith(bullet, item), '\n') == ItemLines(bullet, item) + [""]
  {
    ItemBlockTerminated(bullet, item);
    TerminatedJoin(ItemLines(bullet, item));
    SplitJoin(ItemLines(bullet, item) + [""], '\n');
  }

  /** As written, the block's first line of an item with a title, job
      title or name starts with three characters, none of them U+2022. */
  lemma WrittenBulletLine(item: ItemView)
    requires OneLineFields(item) && Heading(item) != ""
    ensures Split(FormatItemAsWritten(item), '\n')[0] == WrittenBullet + Heading(item)
    ensures |WrittenBullet| == 4 && forall i :: 0 <= i < 3 ==> WrittenBullet[i] != '\U{2022}'
  {
    FormatItemLines(WrittenBullet, item);
  }

  /** Corrected, that line is U+2022, a space and the item's heading. */
  lemma CorrectedBulletLine(item: ItemView)
    requires OneLineFields(item) && Heading(item) != ""
    ensures Split(FormatItem(item), '\n')[0] == ['\U{2022}', ' '] + Heading(item)
  {
    FormatItemLines(Bullet, item);
  }

  /** The line of one entry of a record. */
  function EntryLine(e: (string, string)): string {
    e.0 + ": " + e.1
  }

  /** `formatObject`: one `key: value` line per entry, joined by newlines. */
  function FormatObject(entries: seq<(string, string)>): string {
    Join(Map(entries, EntryLine), "\n")
  }

  /** No line of a record holds a newline when no key or value does. */
  lemma EntryLinesOneLine(entries: seq<(string, string)>)
    requires forall i :: 0 <= i < |entries| ==> '\n' !in entries[i].0 && '\n' !in entries[i].1
    ensures forall i :: 0 <= i < |entries| ==> '\n' !in Map(entries, EntryLine)[i]
  {
    forall i | 0 <= i < |entries| ensures '\n' !in EntryLine(entries[i]) {
      var e := entries[i];
      assert EntryLine(e) == e.0 + (": " + e.1);
    }
  }

  /** Split at its newlines, a formatted record gives back one line per
      entry, in entry order, with no empty line after the last. */
  lemma FormatObjectLines(entries: seq<(string, string)>)
    requires entries != []
    requires forall i :: 0 <= i < |entries| ==> '\n' !in entries[i].0 && '\n' !in entries[i].1
    ensures Split(FormatObject(entries), '\n') == Map(entries, EntryLine)
    ensures Count(FormatObject(entries), '\n') == |entries| - 1
  {
    EntryLinesOneLine(entries);
    SplitJoin(Map(entries, EntryLine), '\n');
  }

  /** An empty record formats as the empty string. */
  lemma FormatObjectEmpty()
    ensures FormatObject([]) == ""
  {
  }

  /** The string value of an array of `n` objects. */
  function ObjectsText(n: nat): string {
    if n == 0 then "" else if n == 1 then "[object Object]" else "[object Object]," + ObjectsText(n - 1)
  }

  /** The entries of a record content in key order; optional keys that are
      absent are left out. */
  function ObjectEntries(c: Content): seq<(string, string)> {
    match c
    case PersonalContent(p) =>
      [("firstName", p.firstName), ("lastName", p.lastName), ("email", p.email),
       ("phone", p.phone), ("location", p.location)]
      + (if p.profileImage.Some? then [("profileImage", p.profileImage.value)] else [])
      + (if p.website.Some? then [("website", p.website.value)] else [])
      + (if p.linkedin.Some? then [("linkedin", p.linkedin.value)] else [])
      + (if p.github.Some? then [("github", p.github.value)] else [])
    case SummaryContent(t) => [("text", t)]
    case GroupedSkills(skills, order) =>
      [("skills", ObjectsText(|skills|))]
      + (if order.Some? then [("categoryOrder", Join(order.value, ","))] else [])
    case Fields(entries) => entries
    case _ => []
  }

  /** The banner over a section: a rule of 50 `=`, the upper-cased title,
      another rule, set off by newlines. */
  function Banner(title: string): (r: string)
    ensures |r| == 105 + |title| && r[0] == '\n'
  {
    "\n" + Repeat('=', 50) + "\n" + ToUpper(title) + "\n" + Repeat('=', 50) + "\n\n"
  }

  /** Each item's block, then a newline, in list order. */
  function ItemsText(bullet: string, items: seq<ItemView>): string {
    if items == [] then "" else ItemsText(bullet, DropLast(items)) + FormatItemWith(bullet, Last(items)) + "\n"
  }

  /** What follows the banner: the items of an array, the lines of a
      record, or the bare string. */
  function BodyText(bullet: string, c: Content): string {
    if IsArray(c) then ItemsText(bullet, Items(c))
    else if !c.Text? then FormatObject(ObjectEntries(c))
    else c.value
  }

  function SectionText(bullet: string, s: Section): (r: string)
    ensures |r| >= 105 && r[0] == '\n'
  {
    Banner(s.title) + BodyText(bullet, s.content)
  }

  function SectionsText(bullet: string, sections: seq<Section>): (r: string)
    ensures |r| >= 105 * |sections|
  {
    if sections == [] then "" else SectionsText(bullet, DropLast(sections)) + SectionText(bullet, Last(sections))
  }

  /** The sections exported, in export order: the visible ones, sorted by
      `order`. */
  function Exported(sections: seq<Section>): seq<Section> {
    SortBy(Filter(sections, Visible), OrderCmp)
  }

  /** `exportAsText` with the given item bullet: `WrittenBullet` is the
      code as written, `Bullet` the corrected export. */
  function ExportText(cv: CV, bullet: string): string {
    SectionsText(bullet, Exported(cv.sections))
  }

  /** Exactly the visible sections are exported, each as often as stored. */
  lemma ExportedMembers(sections: seq<Section>)
    ensures multiset(Exported(sections)) == multiset(Filter(sections, Visible))
    ensures forall s :: s in Exported(sections) <==> s in sections && s.visible
  {
    var r := Exported(sections);
    forall s ensures s in r <==> s in sections && s.visible {
      assert s in r <==> s in multiset(r);
      assert s in Filter(sections, Visible) <==> s in multiset(Filter(sections, Visible));
    }
  }

  /** The exported sections ascend by `order`. */
  lemma ExportedSorted(sections: seq<Section>)
    ensures SortedByKey(Exported(sections), OrderKey)
  {
    var f := Filter(sections, Visible);
    assert KeyedOn(f, OrderCmp, OrderKey);
    SortByKeySorted(f, OrderCmp, OrderKey);
  }

  function VisibleAtOrder(order: int): Section -> bool {
    (s: Section) => s.visible && s.order == order
  }

  /** Visible sections of equal order are exported in their stored order,
      the sort being stable. */
  lemma ExportedStable(sections: seq<Section>, order: int)
    ensures Filter(Exported(sections), AtOrder(order)) == Filter(sections, VisibleAtOrder(order))
  {
    var f := Filter(sections, Visible);
    assert KeyedOn(f, OrderCmp, OrderKey);
    SortByStable(f, OrderCmp, OrderKey, AtOrder(order));
    FilterFilter(sections, Visible, AtOrder(order), VisibleAtOrder(order));
  }

  /** The export is empty exactly when no section is visible. */
  lemma ExportEmptyIff(cv: CV, bullet: string)
    ensures ExportText(cv, bullet) == "" <==> forall s :: s in cv.sections ==> !s.visible
  {
    ExportedMembers(cv.sections);
    var r := Exported(cv.sections);
    if r != [] {
      assert r[0] in r;
    }
  }

  /** Hidden sections do not change the export. */
  lemma HiddenIgnored(cv: CV, bullet: string)
    ensures ExportText(cv.(sections := Filter(cv.sections, Visible)), bullet) == ExportText(cv, bullet)
  {
    var f := Filter(cv.sections, Visible);
    FilterAll(f, Visible);
  }

  /** `exportAsText`: the visible sections in `order`, each appended in
      turn, items under the bullet as written. */
  method ExportAsText(cv: CV) returns (text: string)
    ensures text == ExportText(cv, WrittenBullet)
  {
    var sections := Exported(cv.sections);
    text := "";
    var i := 0;
    while i < |sections|
      invariant 0 <= i <= |sections|
      invariant text == SectionsText(WrittenBullet, sections[..i])
    {
      text := AppendSection(text, sections[i]);
      assert DropLast(sections[..i + 1]) == sections[..i] && Last(sections[..i + 1]) == sections[i];
      i := i + 1;
    }
    assert sections[..i] == sections;
  }

  /** The `forEach` step of `exportAsText`: `+=` of the banner, then of
      each item block and its newline for an array, of the formatted
      record for an object, or of the string itself. */
  method AppendSection(text: string, section: Section) returns (r: string)
    ensures r == text + SectionText(WrittenBullet, section)
  {
    r := text;
    var rule := Repeat('=', 50);
    r := r + "\n" + rule + "\n";
    r := r + ToUpper(section.title) + "\n";
    r := r + rule + "\n\n";
    BannerAppended(text, section.title);
    ghost var head := r;
    if IsArray(section.content) {
      var items := Items(section.content);
      var j := 0;
      while j < |items|
        invariant 0 <= j <= |items|
        invariant r == head + ItemsText(WrittenBullet, items[..j])
      {
        r := r + FormatItemAsWritten(items[j]);
        r := r + "\n";
        ItemAppended(head, WrittenBullet, items, j);
        j := j + 1;
      }
      assert items[..j] == items;
    } else if !section.content.Text? {
      r := r + FormatObject(ObjectEntries(section.content));
    } else {
      r := r + section.content.value;
    }
    AppendAssoc(text, Banner(section.title), BodyText(WrittenBullet, section.content));
  }

  /** The three `+=` of the banner append the banner. */
  lemma BannerAppended(text: string, title: string)
    ensures text + "\n" + Repeat('=', 50) + "\n" + ToUpper(title) + "\n" + Repeat('=', 50) + "\n\n" == text + Banner(title)
  {
    var rule := Repeat('=', 50);
    AppendAssoc(text, "\n" + rule + "\n" + ToUpper(title) + "\n" + rule, "\n\n");
    AppendAssoc(text, "\n" + rule + "\n" + ToUpper(title) + "\n", rule);
    AppendAssoc(text, "\n" + rule + "\n" + ToUpper(title), "\n");
    AppendAssoc(text, "\n" + rule + "\n", ToUpper(title));
    AppendAssoc(text, "\n" + rule, "\n");
    AppendAssoc(text, "\n", rule);
  }

  /** Appending one more item block and its newline extends the items. */
  lemma ItemAppended(head: string, bullet: string, items: seq<ItemView>, j: nat)
    requires j < |items|
    ensures head + ItemsText(bullet, items[..j]) + FormatItemWith(bullet, items[j]) + "\n" == head + ItemsText(bullet, items[..j + 1])
  {
    assert DropLast(items[..j + 1]) == items[..j] && Last(items[..j + 1]) == items[j];
    AppendAssoc(head, ItemsText(bullet, items[..j]) + FormatItemWith(bullet, items[j]), "\n");
    AppendAssoc(head, ItemsText(bullet, items[..j]), FormatItemWith(bullet, items[j]));
  }
}
