/** The document editor: drag-and-drop reordering of the sections, adding a
    section of a chosen kind, and removing one after confirmation. The
    editor works on the document the store holds; the page renders it only
    once a document is loaded. */
module CvEditor {
  import opened Wrappers
  import opened Seqs
  import opened Sorting
  import opened Strings
  import opened CvTypes
  import IdLists
  import opened CvStore

  /** The section list a drop onto `target` produces from `sorted`, the
      sections in order, when both ids are found: the dragged section is
      taken out and put at the target's index, then all are renumbered. */
  function Dropped(sorted: seq<Section>, dragged: string, target: string): (r: seq<Section>)
    requires IdLists.FindIndex(sorted, dragged, SectionId) >= 0
    requires IdLists.FindIndex(sorted, target, SectionId) >= 0
    ensures |r| == |sorted|
  {
    Renumber(IdLists.MoveTo(sorted, IdLists.FindIndex(sorted, dragged, SectionId),
                            IdLists.FindIndex(sorted, target, SectionId)))
  }

  /** A drop puts the dragged section at the target's index, keeps every
      other section in its relative order, loses and duplicates nothing,
      and numbers the orders 1..n. */
  lemma {:induction false} DroppedProperties(sorted: seq<Section>, dragged: string, target: string)
    requires IdLists.FindIndex(sorted, dragged, SectionId) >= 0
    requires IdLists.FindIndex(sorted, target, SectionId) >= 0
    ensures var from := IdLists.FindIndex(sorted, dragged, SectionId);
            var to := IdLists.FindIndex(sorted, target, SectionId);
            var moved := IdLists.MoveTo(sorted, from, to);
            && Dropped(sorted, dragged, target) == Renumber(moved)
            && moved[to] == sorted[from] && moved[to].id == dragged
            && IdLists.RemoveAt(moved, to) == IdLists.RemoveAt(sorted, from)
            && multiset(moved) == multiset(sorted)
            && forall k :: 0 <= k < |sorted| ==> Dropped(sorted, dragged, target)[k].order == k + 1
  {
    var from := IdLists.FindIndex(sorted, dragged, SectionId);
    var to := IdLists.FindIndex(sorted, target, SectionId);
    IdLists.MoveToProperties(sorted, from, to);
  }

  /** The sections after a drop onto `target` while `dragged` is being
      dragged: as they were without a dragged section or when it is the
      target; sorted by `order` when either id is missing; otherwise
      sorted and then reordered. */
  function AfterDrop(sections: seq<Section>, dragged: Option<string>, target: string): (r: seq<Section>)
    ensures |r| == |sections|
  {
    if dragged.None? || dragged == Some("") || dragged == Some(target) then sections
    else
      var sorted := SortBy(sections, OrderCmp);
      if IdLists.FindIndex(sorted, dragged.value, SectionId) < 0 || IdLists.FindIndex(sorted, target, SectionId) < 0 then
        sorted
      else
        Dropped(sorted, dragged.value, target)
  }

  /** Renumbering leaves the ids as they are. */
  lemma RenumberIds(sections: seq<Section>)
    ensures Map(Renumber(sections), SectionId) == Map(sections, SectionId)
  {
  }

  /** A completed drop keeps the same sections, by id. */
  lemma DroppedPermutes(sorted: seq<Section>, dragged: string, target: string)
    requires IdLists.FindIndex(sorted, dragged, SectionId) >= 0
    requires IdLists.FindIndex(sorted, target, SectionId) >= 0
    ensures multiset(Map(Dropped(sorted, dragged, target), SectionId)) == multiset(Map(sorted, SectionId))
  {
    var from := IdLists.FindIndex(sorted, dragged, SectionId);
    var to := IdLists.FindIndex(sorted, target, SectionId);
    var moved := IdLists.MoveTo(sorted, from, to);
    IdLists.MoveToProperties(sorted, from, to);
    RenumberIds(moved);
    MapMultiset(moved, sorted, SectionId);
  }

  /** A drop keeps the same sections, by id, however it ends. */
  lemma {:induction false} AfterDropPermutes(sections: seq<Section>, dragged: Option<string>, target: string)
    ensures multiset(Map(AfterDrop(sections, dragged, target), SectionId)) == multiset(Map(sections, SectionId))
  {
    if !(dragged.None? || dragged == Some("") || dragged == Some(target)) {
      var sorted := SortBy(sections, OrderCmp);
      MapMultiset(sorted, sections, SectionId);
      if IdLists.FindIndex(sorted, dragged.value, SectionId) >= 0 && IdLists.FindIndex(sorted, target, SectionId) >= 0 {
        DroppedPermutes(sorted, dragged.value, target);
      }
    }
  }

  /** With nothing dragged (no id, or the falsy `""`), or a drop onto the
      dragged section itself, the sections stay as they are; when either
      id is missing they are left sorted by `order`, the in-place `sort`
      having run; after a completed drop the orders run 1..n in list
      order. */
  lemma AfterDropCases(sections: seq<Section>, dragged: Option<string>, target: string)
    ensures dragged.None? || dragged == Some("") || dragged == Some(target) ==> AfterDrop(sections, dragged, target) == sections
    ensures dragged.Some? && dragged.value != "" && dragged.value != target
            && (IdLists.FindIndex(SortBy(sections, OrderCmp), dragged.value, SectionId) < 0
                || IdLists.FindIndex(SortBy(sections, OrderCmp), target, SectionId) < 0)
            ==> AfterDrop(sections, dragged, target) == SortBy(sections, OrderCmp)
    ensures dragged.Some? && dragged.value != "" && dragged.value != target
            && IdLists.FindIndex(SortBy(sections, OrderCmp), dragged.value, SectionId) >= 0
            && IdLists.FindIndex(SortBy(sections, OrderCmp), target, SectionId) >= 0
            ==> forall k :: 0 <= k < |sections| ==> AfterDrop(sections, dragged, target)[k].order == k + 1
  {
    var r := AfterDrop(sections, dragged, target);
    if dragged.None? || dragged == Some("") || dragged == Some(target) {
      assert r == sections;
    } else {
      var sorted := SortBy(sections, OrderCmp);
      var from := IdLists.FindIndex(sorted, dragged.value, SectionId);
      var to := IdLists.FindIndex(sorted, target, SectionId);
      if from >= 0 && to >= 0 {
        assert r == Dropped(sorted, dragged.value, target);
        DropNumbered(sorted, dragged.value, target);
      } else {
        assert r == sorted;
      }
    }
  }

  /** A completed drop numbers the orders 1..n in list order. */
  lemma DropNumbered(sorted: seq<Section>, dragged: string, target: string)
    requires IdLists.FindIndex(sorted, dragged, SectionId) >= 0
    requires IdLists.FindIndex(sorted, target, SectionId) >= 0
    ensures forall k :: 0 <= k < |sorted| ==> Dropped(sorted, dragged, target)[k].order == k + 1
  {
    var moved := IdLists.MoveTo(sorted, IdLists.FindIndex(sorted, dragged, SectionId),
                                IdLists.FindIndex(sorted, target, SectionId));
    assert Dropped(sorted, dragged, target) == Renumber(moved);
  }

  /** The kinds the "Add Section" menu offers. */
  const AddableKinds: seq<SectionType> := [
    SummaryType, ExperienceType, EducationType, SkillsType, ProjectsType,
    CertificationsType, LanguagesType, VolunteeringType, ReferencesType
  ]

  /** The menu offers nine distinct kinds, neither a personal nor a custom
      section among them. */
  lemma AddableKindsExact()
    ensures |AddableKinds| == 9 && Distinct(AddableKinds)
    ensures PersonalType !in AddableKinds && CustomType !in AddableKinds
  {
  }

  /** `sectionContentMap[type] ?? []`. */
  function NewContent(kind: SectionType): (c: Content)
    ensures kind == SummaryType ==> c == SummaryContent("")
    ensures kind == PersonalType ==> c == PersonalContent(BlankPersonal)
    ensures kind != SummaryType && kind != PersonalType ==> IsArray(c) && ArrayLength(c) == 0
  {
    match kind
    case SummaryType => SummaryContent("")
    case PersonalType => PersonalContent(BlankPersonal)
    case ExperienceType => Experiences([])
    case EducationType => Educations([])
    case SkillsType => SkillList([])
    case ProjectsType => Projects([])
    case CertificationsType => Certifications([])
    case LanguagesType => Languages([])
    case VolunteeringType => Volunteerings([])
    case ReferencesType => References([])
    case CustomType => EmptyList
  }

  /** The section `handleAddSection` creates at time `now` in a document of
      `count` sections. */
  function NewSection(kind: SectionType, count: nat, now: nat): (s: Section)
    ensures s.kind == kind && s.order == count + 1 && s.visible
    ensures s.title == Capitalize(TypeName(kind)) && s.title[0] == UpperChar(TypeName(kind)[0])
    ensures s.content == NewContent(kind)
    ensures "section-" <= s.id
  {
    Section("section-" + NatToString(now), kind, Capitalize(TypeName(kind)), count + 1, true, NewContent(kind))
  }

  /** `cv.sections.sort((a, b) => a.order - b.order)`: sorts the sections
      of the store's document in place and returns them. */
  method SortSections(store: Store) returns (sorted: seq<Section>)
    requires store.currentCV.Some?
    modifies store
    ensures sorted == SortBy(old(store.currentCV).value.sections, OrderCmp)
    ensures store.currentCV == Some(old(store.currentCV).value.(sections := sorted))
    ensures store.FlagsKept()
  {
    var cv := store.currentCV.value;
    var a := new Section[|cv.sections|](k requires 0 <= k < |cv.sections| => cv.sections[k]);
    assert a[..] == cv.sections;
    SortInPlace(a, OrderCmp);
    sorted := a[..];
    store.currentCV := Some(cv.(sections := sorted));
  }

  /** The two `splice` calls on a copy of `sorted`, then the renumbering
      `map`. */
  method MoveAndRenumber(sorted: seq<Section>, from: nat, to: nat) returns (r: seq<Section>)
    requires from < |sorted| && to < |sorted|
    ensures r == Renumber(IdLists.MoveTo(sorted, from, to))
  {
    var b := new Section[|sorted|](k requires 0 <= k < |sorted| => sorted[k]);
    assert b[..] == sorted;
    IdLists.MoveInPlace(b, from, to);
    r := Renumber(b[..]);
  }

  class Editor {
    var editingSection: Option<string>
    var draggedSection: Option<string>
    var dragOverSection: Option<string>
    const store: Store

    constructor (store: Store)
      ensures this.store == store
      ensures editingSection == None && draggedSection == None && dragOverSection == None
    {
      this.store := store;
      editingSection := None;
      draggedSection := None;
      dragOverSection := None;
    }

    /** A click on a section header opens it, or closes it when open. */
    method HandleHeaderClick(id: string)
      modifies this
      ensures editingSection == if old(editingSection) == Some(id) then None else Some(id)
      ensures draggedSection == old(draggedSection) && dragOverSection == old(dragOverSection)
    {
      editingSection := if editingSection == Some(id) then None else Some(id);
    }

    method HandleDragStart(id: string)
      modifies this
      ensures draggedSection == Some(id)
      ensures editingSection == old(editingSection) && dragOverSection == old(dragOverSection)
    {
      draggedSection := Some(id);
    }

    method HandleDragOver(id: string)
      modifies this
      ensures dragOverSection == Some(id)
      ensures editingSection == old(editingSection) && draggedSection == old(draggedSection)
    {
      dragOverSection := Some(id);
    }

    method HandleDragLeave()
      modifies this
      ensures dragOverSection == None
      ensures editingSection == old(editingSection) && draggedSection == old(draggedSection)
    {
      dragOverSection := None;
    }

    /** `handleDrop(target)`. Without a dragged section, or onto itself,
        the document is left alone. Otherwise the sections are first
        sorted by `order` in place, which the store's document sees even
        when an id is then not found; when both are found, the reordered
        list goes through `reorderSections`. */
    method HandleDrop(target: string)
      requires store.currentCV.Some?
      modifies this, store
      ensures draggedSection == None && dragOverSection == None && editingSection == old(editingSection)
      ensures store.FlagsKept()
      ensures store.currentCV == Some(old(store.currentCV).value.(sections :=
                AfterDrop(old(store.currentCV).value.sections, old(draggedSection), target)))
    {
      dragOverSection := None;
      if draggedSection.None? || draggedSection == Some("") || draggedSection == Some(target) {
        draggedSection := None;
        return;
      }
      var dragged := draggedSection.value;
      ghost var cv := store.currentCV.value;
      var sorted := SortSections(store);
      var from := IdLists.FindIndex(sorted, dragged, SectionId);
      var to := IdLists.FindIndex(sorted, target, SectionId);
      if from < 0 || to < 0 {
        draggedSection := None;
        return;
      }
      var reordered := MoveAndRenumber(sorted, from, to);
      assert reordered == Dropped(sorted, dragged, target);
      store.ReorderSections(reordered);
      RenumberProperties(IdLists.MoveTo(sorted, from, to));
      assert Renumber(reordered) == reordered;
      draggedSection := None;
    }

    /** `handleAddSection(kind)` at time `now`. */
    method HandleAddSection(kind: SectionType, now: nat)
      requires store.currentCV.Some?
      modifies store
      ensures var cv := old(store.currentCV).value;
              store.currentCV == Some(cv.(sections := cv.sections + [NewSection(kind, |cv.sections|, now)]))
      ensures store.FlagsKept()
    {
      var s := NewSection(kind, |store.currentCV.value.sections|, now);
      store.AddSection(s);
    }

    /** `handleRemoveSection(id)`, given the answer to the confirmation
        dialog. */
    method HandleRemoveSection(id: string, confirmed: bool)
      modifies store
      ensures !confirmed ==> store.currentCV == old(store.currentCV)
      ensures confirmed && old(store.currentCV).Some? ==>
                store.currentCV == Some(old(store.currentCV).value.(sections := SectionsWithout(old(store.currentCV).value.sections, id)))
      ensures confirmed && old(store.currentCV).None? ==> store.currentCV == None
      ensures store.FlagsKept()
    {
      if confirmed {
        store.RemoveSection(id);
      }
    }
  }
}
