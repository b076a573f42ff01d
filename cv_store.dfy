/** The document store: the CV being edited and the save flags, and the
    mutators every editor calls. Each mutator replaces `currentCV` by a
    copy built from the old one with `filter`, `map` and spreads, and does
    nothing while no CV is loaded. */
module CvStore {
  import opened Wrappers
  import opened Seqs
  import opened Sorting
  import opened CvTypes
  import IdLists

  function SectionId(s: Section): string {
    s.id
  }

  /** `removeSection`: every section with the id goes, the rest keep their
      order. */
  function SectionsWithout(sections: seq<Section>, id: string): (r: seq<Section>)
    ensures forall s :: s in r <==> s in sections && s.id != id
    ensures IsSubsequence(r, sections)
  {
    IdLists.RemoveById(sections, id, SectionId)
  }

  /** `Partial<CVSection>`: the keys an update carries. */
  datatype SectionPatch = SectionPatch(
    id: Option<string>, kind: Option<SectionType>, title: Option<string>, order: Option<int>,
    visible: Option<bool>, content: Option<Content>)

  const NoPatch := SectionPatch(None, None, None, None, None, None)

  /** `{ ...s, ...updates }`. */
  function Patch(s: Section, p: SectionPatch): Section {
    Section(p.id.GetOr(s.id), p.kind.GetOr(s.kind), p.title.GetOr(s.title), p.order.GetOr(s.order),
            p.visible.GetOr(s.visible), p.content.GetOr(s.content))
  }

  /** `updateSection`: the sections with the id take the patch, the others
      are untouched; an update that carries an `id` gives it to every
      section it matches, and one that carries none keeps every id. */
  function UpdatedSections(sections: seq<Section>, id: string, p: SectionPatch): (r: seq<Section>)
    ensures |r| == |sections|
    ensures forall i :: 0 <= i < |sections| && sections[i].id != id ==> r[i] == sections[i]
    ensures forall i :: 0 <= i < |sections| && sections[i].id == id ==>
              && r[i].title == p.title.GetOr(sections[i].title)
              && r[i].order == p.order.GetOr(sections[i].order)
              && r[i].visible == p.visible.GetOr(sections[i].visible)
              && r[i].content == p.content.GetOr(sections[i].content)
              && r[i].kind == p.kind.GetOr(sections[i].kind)
              && r[i].id == p.id.GetOr(sections[i].id)
    ensures p.id.Some? ==> forall i :: 0 <= i < |sections| && sections[i].id == id ==> r[i].id == p.id.value
    ensures p.id.None? ==> forall i :: 0 <= i < |sections| ==> r[i].id == sections[i].id
  {
    IdLists.UpdateById(sections, id, SectionId, (s: Section) => Patch(s, p))
  }

  /** An update with no keys changes nothing. */
  lemma UpdateWithNoPatch(sections: seq<Section>, id: string)
    ensures UpdatedSections(sections, id, NoPatch) == sections
  {
    var r := UpdatedSections(sections, id, NoPatch);
    assert forall i :: 0 <= i < |sections| ==> r[i] == sections[i];
  }

  /** `toggleSectionVisibility`: the sections with the id flip `visible`,
      nothing else changes. */
  function ToggleVisibility(sections: seq<Section>, id: string): (r: seq<Section>)
    ensures |r| == |sections|
    ensures forall i :: 0 <= i < |sections| ==>
              r[i].visible == (if sections[i].id == id then !sections[i].visible else sections[i].visible)
    ensures forall i :: 0 <= i < |sections| ==> r[i] == sections[i].(visible := r[i].visible)
  {
    IdLists.UpdateById(sections, id, SectionId, (s: Section) => s.(visible := !s.visible))
  }

  /** Toggling twice restores the sections. */
  lemma {:induction false} ToggleTwice(sections: seq<Section>, id: string)
    ensures ToggleVisibility(ToggleVisibility(sections, id), id) == sections
  {
    var once := ToggleVisibility(sections, id);
    var twice := ToggleVisibility(once, id);
    forall i | 0 <= i < |sections| ensures twice[i] == sections[i] {
      assert once[i].id == sections[i].id;
    }
  }

  /** `updateSectionContent`: the sections with the id take the new content,
      nothing else changes. */
  function UpdateContent(sections: seq<Section>, id: string, content: Content): (r: seq<Section>)
    ensures |r| == |sections|
    ensures forall i :: 0 <= i < |sections| ==>
              r[i] == if sections[i].id == id then sections[i].(content := content) else sections[i]
  {
    IdLists.UpdateById(sections, id, SectionId, (s: Section) => s.(content := content))
  }

  /** Of two content updates of one section, the second wins. */
  lemma {:induction false} UpdateContentTwice(sections: seq<Section>, id: string, c1: Content, c2: Content)
    ensures UpdateContent(UpdateContent(sections, id, c1), id, c2) == UpdateContent(sections, id, c2)
  {
    IdLists.UpdateOverwrite(sections, id, SectionId, (s: Section) => s.(content := c1), (s: Section) => s.(content := c2));
  }

  /** `sections.map((s, index) => ({ ...s, order: index + 1 }))`. */
  function Renumber(sections: seq<Section>): (r: seq<Section>)
    ensures |r| == |sections|
    ensures forall i :: 0 <= i < |sections| ==> r[i] == sections[i].(order := i + 1)
  {
    RenumberFrom(sections, 1)
  }

  function RenumberFrom(sections: seq<Section>, first: int): (r: seq<Section>)
    ensures |r| == |sections|
    ensures forall i :: 0 <= i < |sections| ==> r[i] == sections[i].(order := first + i)
  {
    if sections == [] then []
    else [sections[0].(order := first)] + RenumberFrom(sections[1..], first + 1)
  }

  /** After renumbering, the orders are exactly 1..n in list order, so an
      order sort leaves the list as it is, and renumbering again changes
      nothing. */
  lemma {:induction false} RenumberProperties(sections: seq<Section>)
    ensures forall i :: 0 <= i < |sections| ==> Renumber(sections)[i].order == i + 1
    ensures Renumber(Renumber(sections)) == Renumber(sections)
    ensures SortBy(Renumber(sections), OrderCmp) == Renumber(sections)
  {
    var r := Renumber(sections);
    assert Renumber(r) == r;
    assert SortedByKey(r, OrderKey);
    OrderCmpKeyed(r);
    SortByIdentity(r, OrderCmp, OrderKey);
  }

  /** The order comparator is the difference of the order keys. */
  lemma OrderCmpKeyed(s: seq<Section>)
    ensures KeyedOn(s, OrderCmp, OrderKey)
  {
  }

  /** `Partial<CV['metadata']>`: the keys a metadata update carries. */
  datatype MetadataPatch = MetadataPatch(
    theme: Option<Theme>, fontSize: Option<int>, fontFamily: Option<string>, lineHeight: Option<real>,
    margin: Option<int>)

  /** `{ ...metadata, ...patch }`. */
  function MergeMetadata(m: Metadata, p: MetadataPatch): Metadata {
    Metadata(p.theme.GetOr(m.theme), p.fontSize.GetOr(m.fontSize), p.fontFamily.GetOr(m.fontFamily),
             p.lineHeight.GetOr(m.lineHeight), p.margin.GetOr(m.margin))
  }

  /** The keys of `q`, then those of `p` that `q` does not carry. */
  function Combine(p: MetadataPatch, q: MetadataPatch): MetadataPatch {
    MetadataPatch(
      if q.theme.Some? then q.theme else p.theme,
      if q.fontSize.Some? then q.fontSize else p.fontSize,
      if q.fontFamily.Some? then q.fontFamily else p.fontFamily,
      if q.lineHeight.Some? then q.lineHeight else p.lineHeight,
      if q.margin.Some? then q.margin else p.margin)
  }

  /** A merge sets exactly the keys the patch carries; merging the same
      patch again changes nothing; two merges in a row are one merge of the
      combined patch, the later keys winning. */
  lemma MergeProperties(m: Metadata, p: MetadataPatch, q: MetadataPatch)
    ensures p.theme.Some? ==> MergeMetadata(m, p).theme == p.theme.value
    ensures p.theme.None? ==> MergeMetadata(m, p).theme == m.theme
    ensures p.fontSize.Some? ==> MergeMetadata(m, p).fontSize == p.fontSize.value
    ensures p.fontSize.None? ==> MergeMetadata(m, p).fontSize == m.fontSize
    ensures p.fontFamily.Some? ==> MergeMetadata(m, p).fontFamily == p.fontFamily.value
    ensures p.fontFamily.None? ==> MergeMetadata(m, p).fontFamily == m.fontFamily
    ensures p.lineHeight.Some? ==> MergeMetadata(m, p).lineHeight == p.lineHeight.value
    ensures p.lineHeight.None? ==> MergeMetadata(m, p).lineHeight == m.lineHeight
    ensures p.margin.Some? ==> MergeMetadata(m, p).margin == p.margin.value
    ensures p.margin.None? ==> MergeMetadata(m, p).margin == m.margin
    ensures MergeMetadata(MergeMetadata(m, p), p) == MergeMetadata(m, p)
    ensures MergeMetadata(MergeMetadata(m, p), q) == MergeMetadata(m, Combine(p, q))
  {
  }

  /** The store. `lastSaved` holds the time `markAsSaved` was called, which
      the caller passes in. */
  class Store {
    var currentCV: Option<CV>
    var isLoading: bool
    var isSaving: bool
    var lastSaved: Option<int>

    constructor ()
      ensures currentCV == None && !isLoading && !isSaving && lastSaved == None
    {
      currentCV := None;
      isLoading := false;
      isSaving := false;
      lastSaved := None;
    }

    /** The flags are the old ones. */
    twostate predicate FlagsKept()
      reads this
    {
      isLoading == old(isLoading) && isSaving == old(isSaving) && lastSaved == old(lastSaved)
    }

    method SetCurrentCV(cv: CV)
      modifies this
      ensures currentCV == Some(cv) && FlagsKept()
    {
      currentCV := Some(cv);
    }

    method UpdateCVTitle(title: string)
      modifies this
      ensures old(currentCV).None? ==> currentCV == None
      ensures old(currentCV).Some? ==> currentCV == Some(old(currentCV).value.(title := title))
      ensures FlagsKept()
    {
      if currentCV.Some? {
        currentCV := Some(currentCV.value.(title := title));
      }
    }

    method UpdateCVTemplate(template: string)
      modifies this
      ensures old(currentCV).None? ==> currentCV == None
      ensures old(currentCV).Some? ==> currentCV == Some(old(currentCV).value.(template := template))
      ensures FlagsKept()
    {
      if currentCV.Some? {
        currentCV := Some(currentCV.value.(template := template));
      }
    }

    /** `addSection`: the section goes at the end. */
    method AddSection(section: Section)
      modifies this
      ensures old(currentCV).None? ==> currentCV == None
      ensures old(currentCV).Some? ==>
                currentCV == Some(old(currentCV).value.(sections := old(currentCV).value.sections + [section]))
      ensures FlagsKept()
    {
      if currentCV.Some? {
        var cv := currentCV.value;
        currentCV := Some(cv.(sections := cv.sections + [section]));
      }
    }

    method RemoveSection(id: string)
      modifies this
      ensures old(currentCV).None? ==> currentCV == None
      ensures old(currentCV).Some? ==>
                currentCV == Some(old(currentCV).value.(sections := SectionsWithout(old(currentCV).value.sections, id)))
      ensures FlagsKept()
    {
      if currentCV.Some? {
        var cv := currentCV.value;
        currentCV := Some(cv.(sections := SectionsWithout(cv.sections, id)));
      }
    }

    method UpdateSection(id: string, p: SectionPatch)
      modifies this
      ensures old(currentCV).None? ==> currentCV == None
      ensures old(currentCV).Some? ==>
                currentCV == Some(old(currentCV).value.(sections := UpdatedSections(old(currentCV).value.sections, id, p)))
      ensures FlagsKept()
    {
      if currentCV.Some? {
        var cv := currentCV.value;
        currentCV := Some(cv.(sections := UpdatedSections(cv.sections, id, p)));
      }
    }

    /** `reorderSections`: the given list replaces the sections, renumbered
        from 1. */
    method ReorderSections(sections: seq<Section>)
      modifies this
      ensures old(currentCV).None? ==> currentCV == None
      ensures old(currentCV).Some? ==> currentCV == Some(old(currentCV).value.(sections := Renumber(sections)))
      ensures FlagsKept()
    {
      if currentCV.Some? {
        currentCV := Some(currentCV.value.(sections := Renumber(sections)));
      }
    }

    method ToggleSectionVisibility(id: string)
      modifies this
      ensures old(currentCV).None? ==> currentCV == None
      ensures old(currentCV).Some? ==>
                currentCV == Some(old(currentCV).value.(sections := ToggleVisibility(old(currentCV).value.sections, id)))
      ensures FlagsKept()
    {
      if currentCV.Some? {
        var cv := currentCV.value;
        currentCV := Some(cv.(sections := ToggleVisibility(cv.sections, id)));
      }
    }

    method UpdateSectionContent(id: string, content: Content)
      modifies this
      ensures old(currentCV).None? ==> currentCV == None
      ensures old(currentCV).Some? ==>
                currentCV == Some(old(currentCV).value.(sections := UpdateContent(old(currentCV).value.sections, id, content)))
      ensures FlagsKept()
    {
      if currentCV.Some? {
        var cv := currentCV.value;
        currentCV := Some(cv.(sections := UpdateContent(cv.sections, id, content)));
      }
    }

    method UpdateMetadata(p: MetadataPatch)
      modifies this
      ensures old(currentCV).None? ==> currentCV == None
      ensures old(currentCV).Some? ==>
                currentCV == Some(old(currentCV).value.(metadata := MergeMetadata(old(currentCV).value.metadata, p)))
      ensures FlagsKept()
    {
      if currentCV.Some? {
        var cv := currentCV.value;
        currentCV := Some(cv.(metadata := MergeMetadata(cv.metadata, p)));
      }
    }

    method MarkAsSaving()
      modifies this
      ensures isSaving
      ensures currentCV == old(currentCV) && isLoading == old(isLoading) && lastSaved == old(lastSaved)
    {
      isSaving := true;
    }

    /** `markAsSaved`, called at time `now`. */
    method MarkAsSaved(now: int)
      modifies this
      ensures !isSaving && lastSaved == Some(now)
      ensures currentCV == old(currentCV) && isLoading == old(isLoading)
    {
      isSaving := false;
      lastSaved := Some(now);
    }
  }

  /** Toggling a section's visibility twice through the store restores the
      document. */
  method ToggleTwiceRestores(store: Store, id: string)
    modifies store
    ensures store.currentCV == old(store.currentCV)
  {
    store.ToggleSectionVisibility(id);
    store.ToggleSectionVisibility(id);
    if old(store.currentCV).Some? {
      ToggleTwice(old(store.currentCV).value.sections, id);
    }
  }
}
