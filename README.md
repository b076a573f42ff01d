# buildmycv core, modelled in Dafny

A model of the CV builder's document logic. A CV is a list of sections (personal details, summary,
experience, education, skills, projects, certifications, languages, volunteering, references,
custom), each with an id, a title, an `order`, a `visible` flag and the content of its kind. The
model covers:

- the store that holds the document being edited and its mutators (`Store`, a class with fields);
- the editor's drag-and-drop reordering and its "Add Section" menu;
- the per-section item editors: append, remove by id, update a field by id, move up/down,
  the technologies box, and the skill categories;
- the preview's ordering rules: personal header, visible sections by `order`, skill groups,
  certifications newest first;
- the ATS score, with its seven checks, their points, issues, strengths and suggestions;
- the plain-text export (`exportAsText`, `formatItem`, `formatObject`);
- the form validators, `validateCV`, bearer-token extraction and the month/year helpers.

Modules follow the source files:

| module | source |
|---|---|
| `CvTypes` | `src/types/cv.ts` |
| `CvStore` | `src/store/cvStore.ts` |
| `CvEditor` | `src/components/editor/CVEditor.tsx` |
| `IdLists` | the handlers the section editors share |
| `ExperienceSection` … `ReferenceSection`, `SkillsSection` | the editors |
| `CvPreview` | `src/components/preview/CVPreview.tsx` |
| `AtsAnalyzer` | `src/utils/atsAnalyzer.ts` |
| `PdfGenerator` | `src/utils/pdfGenerator.ts` |
| `Validation` | `src/lib/validation.ts` |
| `Auth` | `src/lib/auth.ts` |
| `DateUtils` | `src/lib/dateUtils.ts` |
| `JsObjects` | the plain `{}` dictionaries of `SkillsSection.tsx` and `CVPreview.tsx` |

Wrappers, Seqs, Sorting and Strings hold the JavaScript library behaviour the code relies on. Sorting
models `Array.prototype.sort` as a stable insertion sort over the comparator. Strings models `trim`
and `\s` with one whitespace set, and also `split`, `join`, `includes`, `repeat`, ASCII case mapping
and `String(n)`.

The code renders the preview in one unpaginated column, and no page-packing algorithm exists in it.
The model follows the code and has no pagination.

State-changing code is imperative Dafny. Where the source mutates in place, so does the model:

- store mutators, editor handlers and drag state are methods on classes;
- the in-place `sort` of the drop handler and the `splice` move run on arrays;
- the move-up/down swaps run on copied arrays;
- the grouping `reduce` loops over a `map`;
- a JavaScript object used as a dictionary is modelled with its inherited `Object.prototype` names and
  its `Object.keys` order (`JsObjects`);
- the ATS running score and the export's `+=` loops are loops.

Each such method is proved equal to a function, and the properties are proved about that function.

## Model

| member | source | states |
|---|---|---|
| CvTypes.FindKind | src/components/preview/CVPreview.tsx:15 | `sections.find` by kind: none exactly when no section has the kind; otherwise the first such section, which is one of the sections |
| CvTypes.Items | src/utils/atsAnalyzer.ts:306-307 | the items of a content are empty unless the content is an array |
| CvTypes.ItemsLength | src/utils/atsAnalyzer.ts:234 | the item list has the array's `length` |
| CvTypes.Lookup | src/utils/atsAnalyzer.ts:33 | `content[key]` on a record: a value exactly when some entry carries the key, and then the value of the first such entry (validation.ts:43-49 reads fields the same way) |
| CvTypes.LookupReadsBack | src/utils/atsAnalyzer.ts:33 | with distinct keys, each key reads back its own value |
| CvTypes.DefaultCV | src/utils/templates.ts:78-149 | the starter document has six visible sections, ordered 1..6, with distinct ids |
| CvStore.SectionsWithout | src/store/cvStore.ts:71-82 | `removeSection`: a section survives iff it was there and its id differs; the survivors keep their relative order (a subsequence) |
| CvStore.UpdatedSections | src/store/cvStore.ts:84-98 | `updateSection`: same length; sections with another id unchanged; matching ones take every key the patch carries, the id included; ids kept when the patch has no id |
| CvStore.UpdateWithNoPatch | src/store/cvStore.ts:88-90 | an update with an empty patch changes nothing |
| CvStore.ToggleVisibility | src/store/cvStore.ts:112-126 | same length; exactly the sections with the id flip `visible`; nothing else changes |
| CvStore.ToggleTwice | src/store/cvStore.ts:116-118 | toggling twice restores the sections |
| CvStore.UpdateContent | src/store/cvStore.ts:129-143 | same length; matching sections take the content; everything else is kept |
| CvStore.UpdateContentTwice | src/store/cvStore.ts:133-135 | of two content updates of one id, the second wins |
| CvStore.Renumber | src/store/cvStore.ts:107 | the i-th section is the i-th given one with `order` = i + 1 |
| CvStore.RenumberProperties | src/store/cvStore.ts:100-110 | orders are exactly 1..n; renumbering is idempotent; a renumbered list is already sorted by order |
| CvStore.OrderCmpKeyed | src/components/editor/CVEditor.tsx:63 | `a.order - b.order` is the comparator of the order keys |
| CvStore.MergeProperties | src/store/cvStore.ts:146-159 | each metadata key the patch carries is overridden and every other keeps its value; re-merging a patch changes nothing; two merges are one merge of the combined patch |
| CvStore.Store.constructor | src/store/cvStore.ts:37-40 | the store starts with no document, not loading, not saving, never saved |
| CvStore.Store.SetCurrentCV | src/store/cvStore.ts:43 | the document is replaced; the flags are kept |
| CvStore.Store.UpdateCVTitle | src/store/cvStore.ts:45-49 | no document, no change; otherwise only `title` changes |
| CvStore.Store.UpdateCVTemplate | src/store/cvStore.ts:51-55 | no document, no change; otherwise only `template` changes |
| CvStore.Store.AddSection | src/store/cvStore.ts:58-69 | no document, no change; otherwise the section is appended after the unchanged old sections |
| CvStore.Store.RemoveSection | src/store/cvStore.ts:71-82 | no document, no change; otherwise the sections become `SectionsWithout` |
| CvStore.Store.UpdateSection | src/store/cvStore.ts:84-98 | no document, no change; otherwise the sections become `UpdatedSections` |
| CvStore.Store.ReorderSections | src/store/cvStore.ts:100-110 | no document, no change; otherwise the given list, renumbered 1..n |
| CvStore.Store.ToggleSectionVisibility | src/store/cvStore.ts:112-126 | no document, no change; otherwise the sections become `ToggleVisibility` |
| CvStore.Store.UpdateSectionContent | src/store/cvStore.ts:129-143 | no document, no change; otherwise the sections become `UpdateContent` |
| CvStore.Store.UpdateMetadata | src/store/cvStore.ts:146-159 | no document, no change; otherwise only the metadata changes, to the merge |
| CvStore.Store.MarkAsSaving | src/store/cvStore.ts:162 | `isSaving` is set; the document and `lastSaved` are kept |
| CvStore.Store.MarkAsSaved | src/store/cvStore.ts:163-164 | `isSaving` is cleared and `lastSaved` is the given time; the document is kept |
| CvStore.ToggleTwiceRestores | src/store/cvStore.ts:112-126 | two toggles of one id through the store restore the stored document |
| CvEditor.Dropped | src/components/editor/CVEditor.tsx:73-81 | the moved and renumbered list has the sorted list's length |
| CvEditor.DroppedProperties | src/components/editor/CVEditor.tsx:73-81 | the dragged section lands at the target's index, with `order` = index + 1; the others keep their relative order; orders are 1..n |
| CvEditor.AfterDrop | src/components/editor/CVEditor.tsx:53-85 | a drop never changes the number of sections |
| CvEditor.RenumberIds | src/components/editor/CVEditor.tsx:78-81 | renumbering keeps the ids in place |
| CvEditor.DroppedPermutes | src/components/editor/CVEditor.tsx:73-75 | a completed drop is a permutation of the sorted sections, by id |
| CvEditor.AfterDropPermutes | src/components/editor/CVEditor.tsx:53-85 | however a drop ends, the sections are a permutation of the old ones, by id |
| CvEditor.AfterDropCases | src/components/editor/CVEditor.tsx:57-83 | no dragged section (none, or the falsy `""`), or a drop onto itself, changes nothing; otherwise a missing dragged or target id leaves the list sorted by order; a completed drop numbers the orders 1..n |
| CvEditor.DropNumbered | src/components/editor/CVEditor.tsx:78-81 | after a completed drop the orders run 1..n in list order |
| CvEditor.AddableKindsExact | src/components/editor/CVEditor.tsx:244-254 | the menu offers nine distinct kinds, neither personal nor custom |
| CvEditor.NewContent | src/components/editor/CVEditor.tsx:88-100 | `{text: ''}` for a summary, the all-empty personal record for personal, an empty array otherwise |
| CvEditor.NewSection | src/components/editor/CVEditor.tsx:102-109 | order = count + 1, visible, the title is the kind's name with its first letter upper-cased, the id starts with `section-` |
| CvEditor.SortSections | src/components/editor/CVEditor.tsx:63 | the in-place sort leaves the stored sections sorted by order (stably) and returns them |
| CvEditor.MoveAndRenumber | src/components/editor/CVEditor.tsx:73-81 | the two splices on an array copy and the renumbering give `Renumber(MoveTo(sorted, from, to))` |
| CvEditor.Editor.constructor | src/components/editor/CVEditor.tsx:30-32 | no section is open, dragged or hovered |
| CvEditor.Editor.HandleHeaderClick | src/components/editor/CVEditor.tsx:183-187 | a click opens the section, or closes it when it is the open one |
| CvEditor.Editor.HandleDragStart | src/components/editor/CVEditor.tsx:38-41 | the section becomes the dragged one; nothing else changes |
| CvEditor.Editor.HandleDragOver | src/components/editor/CVEditor.tsx:43-47 | the section becomes the hovered one |
| CvEditor.Editor.HandleDragLeave | src/components/editor/CVEditor.tsx:49-51 | nothing is hovered |
| CvEditor.Editor.HandleDrop | src/components/editor/CVEditor.tsx:53-85 | the stored sections become `AfterDrop` (sorted in place first when an id was dragged); drag state is cleared |
| CvEditor.Editor.HandleAddSection | src/components/editor/CVEditor.tsx:87-111 | the new section of the kind is appended to the document |
| CvEditor.Editor.HandleRemoveSection | src/components/editor/CVEditor.tsx:113-117 | only a confirmed removal removes the section |
| IdLists.RemoveById | src/components/editor/sections/ExperienceSection.tsx:30-35 | an item survives iff it was there with another id; order kept |
| IdLists.UpdateById | src/components/editor/sections/ExperienceSection.tsx:37-44 | same length; matching items take the change; the others are kept |
| IdLists.UpdateKeepsIds | src/components/editor/sections/ExperienceSection.tsx:40-42 | a change that keeps ids leaves every id in place |
| IdLists.UpdateOverwrite | src/components/editor/sections/ExperienceSection.tsx:40-42 | a second update of one id through an overriding change wins |
| IdLists.AppendThenRemove | src/components/editor/sections/ExperienceSection.tsx:16-35 | removing a freshly appended id restores the list |
| IdLists.RemoveAfterAppend | src/components/editor/sections/ExperienceSection.tsx:27-33 | removing another id after an append is removing it first |
| IdLists.Swap | src/components/editor/sections/ProjectsSection.tsx:50 | the two positions are exchanged, every other position kept |
| IdLists.SwapPermutes | src/components/editor/sections/ProjectsSection.tsx:50 | a swap keeps the same elements |
| IdLists.SwapTwice | src/components/editor/sections/ProjectsSection.tsx:50 | swapping twice restores the list |
| IdLists.MoveUp | src/components/editor/sections/ProjectsSection.tsx:47-52 | index 0 is a no-op; otherwise positions i-1 and i are swapped on an array copy (VolunteeringSection.tsx:47-52 alike) |
| IdLists.MoveDown | src/components/editor/sections/ProjectsSection.tsx:54-59 | the last index is a no-op; otherwise positions i and i+1 are swapped (VolunteeringSection.tsx:54-59 alike) |
| IdLists.MoveDownUndoesMoveUp | src/components/editor/sections/VolunteeringSection.tsx:47-59 | moving up at i and then down at i-1 restores the list |
| IdLists.RemoveAt | src/components/editor/CVEditor.tsx:74 | `splice(i, 1)`: one element fewer, the others in order |
| IdLists.MoveTo | src/components/editor/CVEditor.tsx:73-75 | the two splices keep the length |
| IdLists.MoveToProperties | src/components/editor/CVEditor.tsx:73-75 | the moved element lands at `to`; the rest keep their relative order; the result is a permutation |
| IdLists.MoveToPointwise | src/components/editor/CVEditor.tsx:73-75 | each index of the result holds the element the two splices put there |
| IdLists.MoveInPlace | src/components/editor/CVEditor.tsx:73-75 | the array in place ends as `MoveTo` of its old contents |
| IdLists.FindIndex | src/components/editor/CVEditor.tsx:64-65 | `findIndex`: -1 exactly when no item has the id; otherwise the first index holding it |
| ExperienceSection.Apply | src/components/editor/sections/ExperienceSection.tsx:41 | `{...e, [field]: value}`: the named field takes the value, every other field and the id are kept |
| ExperienceSection.Add | src/components/editor/sections/ExperienceSection.tsx:16-28 | one blank entry (`currentlyWorking` false) appended after the unchanged old ones |
| ExperienceSection.Remove | src/components/editor/sections/ExperienceSection.tsx:30-35 | an entry survives iff its id differs; order kept |
| ExperienceSection.Update | src/components/editor/sections/ExperienceSection.tsx:37-44 | same length and ids; matching entries get the edit, the others are kept |
| ExperienceSection.AddThenRemove | src/components/editor/sections/ExperienceSection.tsx:16-35 | removing the id an add created undoes the add |
| ExperienceSection.UpdateTwice | src/components/editor/sections/ExperienceSection.tsx:37-44 | two edits of one field of one entry: the second wins |
| ExperienceSection.UpdatesCommute | src/components/editor/sections/ExperienceSection.tsx:41 | edits of different fields commute |
| EducationSection.Apply | src/components/editor/sections/EducationSection.tsx:41 | the named field takes the value, the rest is kept |
| EducationSection.Add | src/components/editor/sections/EducationSection.tsx:16-28 | one blank entry (`currentlyStudying` false) appended after the unchanged old ones |
| EducationSection.Remove | src/components/editor/sections/EducationSection.tsx:30-35 | an entry survives iff its id differs; order kept |
| EducationSection.Update | src/components/editor/sections/EducationSection.tsx:37-44 | same length and ids; only matching entries change |
| EducationSection.AddThenRemove | src/components/editor/sections/EducationSection.tsx:16-35 | removing the id an add created undoes the add |
| EducationSection.UpdateTwice | src/components/editor/sections/EducationSection.tsx:37-44 | the second of two edits of one field wins |
| EducationSection.UpdatesCommute | src/components/editor/sections/EducationSection.tsx:41 | edits of different fields commute |
| ProjectsSection.Apply | src/components/editor/sections/ProjectsSection.tsx:42 | the named field takes the value, the rest is kept |
| ProjectsSection.Add | src/components/editor/sections/ProjectsSection.tsx:17-29 | one blank project with no technologies appended |
| ProjectsSection.Remove | src/components/editor/sections/ProjectsSection.tsx:31-36 | a project survives iff its id differs; order kept |
| ProjectsSection.Update | src/components/editor/sections/ProjectsSection.tsx:38-45 | same length and ids; only matching projects change |
| ProjectsSection.AddThenRemove | src/components/editor/sections/ProjectsSection.tsx:17-36 | removing the id an add created undoes the add |
| ProjectsSection.UpdateTwice | src/components/editor/sections/ProjectsSection.tsx:38-45 | the second of two edits of one field wins |
| ProjectsSection.UpdatesCommute | src/components/editor/sections/ProjectsSection.tsx:42 | edits of different fields commute |
| ProjectsSection.ParseTechnologies | src/components/editor/sections/ProjectsSection.tsx:187 | one piece per comma plus one, each free of commas and trimmed |
| ProjectsSection.Padded | src/components/editor/sections/ProjectsSection.tsx:182 | the pieces of the `", "`-joined text: the first as is, the others after one space |
| ProjectsSection.TechnologiesRoundTrip | src/components/editor/sections/ProjectsSection.tsx:182-187 | reading back the shown text gives the list when no entry has a comma or outer whitespace |
| ProjectsSection.SplitShown | src/components/editor/sections/ProjectsSection.tsx:182-187 | splitting the shown text at `,` gives the padded list |
| ProjectsSection.EmptyTechnologiesReadBack | src/components/editor/sections/ProjectsSection.tsx:182-187 | an empty list shows as "" and reads back as `[""]` |
| VolunteeringSection.Apply | src/components/editor/sections/VolunteeringSection.tsx:42 | the named field takes the value, the rest is kept |
| VolunteeringSection.Add | src/components/editor/sections/VolunteeringSection.tsx:17-29 | one blank entry (`currentlyVolunteering` false) appended |
| VolunteeringSection.Remove | src/components/editor/sections/VolunteeringSection.tsx:31-36 | an entry survives iff its id differs; order kept |
| VolunteeringSection.Update | src/components/editor/sections/VolunteeringSection.tsx:38-45 | same length and ids; only matching entries change |
| VolunteeringSection.AddThenRemove | src/components/editor/sections/VolunteeringSection.tsx:17-36 | removing the id an add created undoes the add |
| VolunteeringSection.UpdateTwice | src/components/editor/sections/VolunteeringSection.tsx:38-45 | the second of two edits of one field wins |
| VolunteeringSection.UpdatesCommute | src/components/editor/sections/VolunteeringSection.tsx:42 | edits of different fields commute |
| CertificationSection.Apply | src/components/editor/sections/CertificationSection.tsx:46 | the named field takes the value, the rest is kept |
| CertificationSection.Add | src/components/editor/sections/CertificationSection.tsx:22-33 | one all-empty certification appended |
| CertificationSection.Remove | src/components/editor/sections/CertificationSection.tsx:35-40 | a certification survives iff its id differs; order kept |
| CertificationSection.Update | src/components/editor/sections/CertificationSection.tsx:42-49 | same length and ids in the stored (unsorted) list; only matching entries change |
| CertificationSection.AddThenRemove | src/components/editor/sections/CertificationSection.tsx:22-40 | removing the id an add created undoes the add |
| CertificationSection.UpdateTwice | src/components/editor/sections/CertificationSection.tsx:42-49 | the second of two edits of one field wins |
| CertificationSection.UpdatesCommute | src/components/editor/sections/CertificationSection.tsx:46 | edits of different fields commute |
| CertificationSection.MonthIndex | src/components/editor/sections/CertificationSection.tsx:19 | a `YYYY-MM` value parses exactly when it is a month input, to year·12 + month - 1 |
| CertificationSection.CertCmp | src/components/editor/sections/CertificationSection.tsx:17-20 | 0 when either date is empty; negative exactly when both parse and the first is more recent |
| CertificationSection.SortedForDisplay | src/components/editor/sections/CertificationSection.tsx:17-20 | the display list is a permutation of the stored list, which it leaves alone |
| CertificationSection.CertCmpAntisymmetric | src/components/editor/sections/CertificationSection.tsx:17-20 | swapping the arguments negates the comparison |
| CertificationSection.DatedKeyed | src/components/editor/sections/CertificationSection.tsx:19 | with parseable dates the comparator is the difference of the negated months |
| CertificationSection.DisplayNewestFirst | src/components/editor/sections/CertificationSection.tsx:17-20 | with parseable dates the display descends by issue month |
| CertificationSection.DisplayStable | src/components/editor/sections/CertificationSection.tsx:17-20 | certifications of one month keep their stored order |
| CertificationSection.DisplayUndated | src/components/editor/sections/CertificationSection.tsx:17-20 | with no parseable date the display is the stored order |
| LanguageSection.Apply | src/components/editor/sections/LanguageSection.tsx:36 | the named field takes the value, the rest is kept |
| LanguageSection.Add | src/components/editor/sections/LanguageSection.tsx:16-23 | one language with an empty name and proficiency `professional` appended |
| LanguageSection.Remove | src/components/editor/sections/LanguageSection.tsx:25-30 | a language survives iff its id differs; order kept |
| LanguageSection.Update | src/components/editor/sections/LanguageSection.tsx:32-39 | same length and ids; only matching entries change |
| LanguageSection.AddThenRemove | src/components/editor/sections/LanguageSection.tsx:16-30 | removing the id an add created undoes the add |
| LanguageSection.UpdateTwice | src/components/editor/sections/LanguageSection.tsx:32-39 | the second of two edits of one field wins |
| LanguageSection.UpdatesCommute | src/components/editor/sections/LanguageSection.tsx:36 | edits of different fields commute |
| LanguageSection.ProficiencyLevelsExact | src/components/editor/sections/LanguageSection.tsx:10 | every proficiency offered exactly once, as elementary, limited, professional, fluent, native |
| LanguageSection.ProficiencyLabel | src/components/editor/sections/LanguageSection.tsx:59-63 | a choice's label is its name with the first letter upper-cased |
| ReferenceSection.Apply | src/components/editor/sections/ReferenceSection.tsx:38 | the named field takes the value, the rest is kept |
| ReferenceSection.Add | src/components/editor/sections/ReferenceSection.tsx:14-25 | one all-empty reference appended after the unchanged old ones |
| ReferenceSection.Remove | src/components/editor/sections/ReferenceSection.tsx:27-32 | a reference survives iff its id differs; order kept |
| ReferenceSection.Update | src/components/editor/sections/ReferenceSection.tsx:34-41 | same length and ids; only matching entries change |
| ReferenceSection.AddThenRemove | src/components/editor/sections/ReferenceSection.tsx:14-32 | removing the id an add created undoes the add |
| ReferenceSection.UpdateTwice | src/components/editor/sections/ReferenceSection.tsx:34-41 | the second of two edits of one field wins |
| ReferenceSection.UpdatesCommute | src/components/editor/sections/ReferenceSection.tsx:38 | edits of different fields commute |
| Strings.CodeUnits | src/components/preview/CVPreview.tsx:218 | a character is one unit below U+10000, otherwise a high surrogate then another unit, all below 0x10000 |
| Strings.Utf16Injective | src/components/preview/CVPreview.tsx:218 | different strings have different UTF-16 encodings |
| Strings.LexCmp | src/components/preview/CVPreview.tsx:218 | the default `sort` comparison: the lexicographic comparison of the UTF-16 encodings, 0 exactly for equal strings (SkillsSection.tsx:26 alike) |
| Strings.LexCmpAntisymmetric | src/components/preview/CVPreview.tsx:218 | swapping the strings negates the comparison |
| Strings.LexCmpTransitive | src/components/preview/CVPreview.tsx:218 | the comparison is transitive, hence a total order |
| Strings.SupplementaryBeforeHighBmp | src/components/preview/CVPreview.tsx:218 | U+1F600 sorts before U+FF01, against code-point order |
| JsObjects.Keys | src/components/preview/CVPreview.tsx:215 | `Object.keys` lists exactly the keys created, each as often: the array indices first, then the rest |
| JsObjects.KeysMembers | src/components/preview/CVPreview.tsx:215 | the keys listed are the keys created, and repeat nothing when none was created twice |
| JsObjects.KeysOrder | src/components/preview/CVPreview.tsx:215 | array indices come first, ascending by value; the other keys follow in creation order |
| JsObjects.KeysOfNames | src/components/editor/sections/SkillsSection.tsx:26 | with no array index among them, the keys keep their creation order |
| JsObjects.IndexKeyFirst | src/components/preview/CVPreview.tsx:215 | an array-index key created after a name is listed before it |
| JsObjects.YearIsIndex | src/components/preview/CVPreview.tsx:215 | the key `2024` is an array index |
| JsObjects.NumericKeyFirst | src/components/preview/CVPreview.tsx:215 | keys created as `Tools`, `2024` are listed as `2024`, `Tools` |
| SkillsSection.Apply | src/components/editor/sections/SkillsSection.tsx:67 | the named field takes the value, the rest is kept |
| SkillsSection.Remove | src/components/editor/sections/SkillsSection.tsx:56-61 | a skill survives iff its id differs; order kept |
| SkillsSection.Update | src/components/editor/sections/SkillsSection.tsx:63-70 | same length and ids; only matching skills change |
| SkillsSection.UpdateTwice | src/components/editor/sections/SkillsSection.tsx:63-70 | the second of two edits of one field wins |
| SkillsSection.UpdatesCommute | src/components/editor/sections/SkillsSection.tsx:67 | edits of different fields commute |
| SkillsSection.SkillLevelsExact | src/components/editor/sections/SkillsSection.tsx:11 | every level offered once, as beginner, intermediate, advanced, expert |
| SkillsSection.AddCategory | src/components/editor/sections/SkillsSection.tsx:28-43 | a cancelled or blank answer changes nothing; otherwise one skill with the trimmed category, no name, level intermediate, 0 endorsements is appended |
| SkillsSection.AddSkill | src/components/editor/sections/SkillsSection.tsx:45-54 | one skill in the category appended after the unchanged old ones |
| SkillsSection.RenameCategory | src/components/editor/sections/SkillsSection.tsx:72-81 | a cancelled, blank or unchanged answer changes nothing; otherwise exactly the skills stored under the old name move to the trimmed name; length kept |
| SkillsSection.DeleteCategory | src/components/editor/sections/SkillsSection.tsx:83-90 | unconfirmed, nothing; confirmed, exactly the skills stored under the category go, the others keep their order |
| SkillsSection.CategoriesProperties | src/components/editor/sections/SkillsSection.tsx:19-24 | each group name occurs once; the names are exactly the display categories of the skills |
| SkillsSection.GroupIsFilter | src/components/editor/sections/SkillsSection.tsx:19-24 | a group is the skills of that display category, in list order |
| SkillsSection.GroupsPartition | src/components/editor/sections/SkillsSection.tsx:19-24 | every skill is in exactly one group, as often as it occurs |
| SkillsSection.GroupByCategory | src/components/editor/sections/SkillsSection.tsx:19-24 | a `TypeError` exactly when some display category is an inherited `Object.prototype` name (`constructor`, `toString`, `__proto__`, …), whose `push` fails; otherwise the `reduce` loop creates one key per group name, in first-appearance order, each holding its group |
| SkillsSection.GroupMapGroups | src/components/editor/sections/SkillsSection.tsx:19-24 | the dictionary built skill by skill is the grouping |
| SkillsSection.GroupStep | src/components/editor/sections/SkillsSection.tsx:21-22 | opening a missing key and pushing one skill keeps the grouping |
| SkillsSection.EditorCategories | src/components/editor/sections/SkillsSection.tsx:19-26 | a `TypeError` exactly when the grouping throws; otherwise the sorted `Object.keys` are a permutation of the group names |
| SkillsSection.EditorCategoriesAscending | src/components/editor/sections/SkillsSection.tsx:26 | when the grouping succeeds, the editor lists every group once, strictly ascending by UTF-16 code unit, as the default `sort` compares |
| SkillsSection.UncategorizedGroupUnreachable | src/components/editor/sections/SkillsSection.tsx:72-90 | a skill listed under `Uncategorized` is neither renamed nor deleted by that group's buttons, while the corrected handlers act on it |
| SkillsSection.LooseListed | src/components/editor/sections/SkillsSection.tsx:19-24 | a skill of empty category is listed under `Uncategorized` |
| SkillsSection.LooseRenamed | src/components/editor/sections/SkillsSection.tsx:72-81 | renaming `Uncategorized` leaves that skill as it was; the corrected rename moves it |
| SkillsSection.LooseDeleted | src/components/editor/sections/SkillsSection.tsx:83-90 | deleting `Uncategorized` keeps that skill; the corrected delete removes it |
| SkillsSection.RenameDisplayedCategory | src/components/editor/sections/SkillsSection.tsx:72-81 | the corrected rename moves every skill listed under the group |
| SkillsSection.RenameDisplayedEmptiesGroup | src/components/editor/sections/SkillsSection.tsx:72-81 | after a corrected rename to a new name the old group is empty |
| SkillsSection.DeleteDisplayedCategory | src/components/editor/sections/SkillsSection.tsx:83-90 | the corrected delete removes exactly the skills listed under the group |
| CvPreview.Header | src/components/preview/CVPreview.tsx:14-16 | the header is the first personal section's content, none exactly when there is no personal section |
| CvPreview.HeaderIgnoresPlacement | src/components/preview/CVPreview.tsx:14-16 | visibility, order, id and title do not affect the header |
| CvPreview.Body | src/components/preview/CVPreview.tsx:415-418 | a section is in the body iff it is visible and not personal |
| CvPreview.BodyIsSortedShown | src/components/preview/CVPreview.tsx:415-418 | the body is the visible non-personal sections sorted by order |
| CvPreview.BodySorted | src/components/preview/CVPreview.tsx:417 | the body ascends by order |
| CvPreview.BodyStable | src/components/preview/CVPreview.tsx:417 | sections of equal order keep their stored order |
| CvPreview.DateText | src/components/preview/CVPreview.tsx:100-102 | start, then ` - end` when there is an end, then ` - Present` exactly when current |
| CvPreview.LevelTag | src/components/preview/CVPreview.tsx:232-236 | no tag exactly for the default level; otherwise the level in parentheses |
| CvPreview.OrderedCategoriesProperties | src/components/preview/CVPreview.tsx:215-218 | every category gets a heading and nothing else does; no repeats; without an order the headings ascend by UTF-16 code unit |
| CvPreview.GivenOrderDistinct | src/components/preview/CVPreview.tsx:216-217 | with a repeat-free order, the ordered categories repeat nothing |
| CvPreview.OrderedCategoriesMembers | src/components/preview/CVPreview.tsx:216-218 | the headings are exactly the categories, whatever the order |
| CvPreview.SortedCategories | src/components/preview/CVPreview.tsx:218 | without an order, the categories in strictly ascending UTF-16 code-unit order |
| CvPreview.GroupsFor | src/components/preview/CVPreview.tsx:220-226 | one group per heading, holding that heading's skills |
| CvPreview.HeadingsDistinct | src/components/preview/CVPreview.tsx:200-218 | headings repeat nothing and are exactly the display categories (`Other Skills` for none) |
| CvPreview.SkillShown | src/components/preview/CVPreview.tsx:200-226 | every skill is shown under the heading of its category |
| CvPreview.SkillShownOnce | src/components/preview/CVPreview.tsx:200-226 | a skill is shown under one heading only |
| CvPreview.RenderSkills | src/components/preview/CVPreview.tsx:200-241 | a `TypeError` exactly when some display category is an inherited `Object.prototype` name; otherwise the grouping loop, `Object.keys` of the grouping and the heading map build `SkillGroups` |
| CvPreview.EmptyOrderKeepsKeys | src/components/preview/CVPreview.tsx:215-217 | an empty category order leaves the `Object.keys` order as it is |
| CvPreview.EmptyOrderHeadings | src/components/preview/CVPreview.tsx:215-217 | with an empty category order the headings are the `Object.keys` of the grouping |
| CvPreview.TwoCategories | src/components/preview/CVPreview.tsx:204-212 | two skills of distinct, non-empty categories create the two keys in list order |
| CvPreview.HeadingsIndexFirst | src/components/preview/CVPreview.tsx:204-217 | with an empty order, an array-index category is listed before a word category that came first |
| CvPreview.HeadingsNumericFirst | src/components/preview/CVPreview.tsx:204-217 | skills in `Tools` then `2024` with `categoryOrder: []` are headed `2024`, then `Tools` |
| CvPreview.GroupsByHeading | src/components/preview/CVPreview.tsx:220-226 | looking each heading up in the dictionary gives `GroupsFor` |
| CvPreview.SummaryText | src/components/preview/CVPreview.tsx:80 | a summary shows its text |
| CvPreview.RenderBlock | src/components/preview/CVPreview.tsx:69-340 | certifications are shown newest first; skills as their groups |
| CvPreview.Render | src/components/preview/CVPreview.tsx:413-418 | a `TypeError` exactly when a body section is a skills section whose grouping throws; otherwise the header, then one block per body section, in body order |
| CvPreview.HiddenRendersNothing | src/components/preview/CVPreview.tsx:70 | a rendered preview shows only visible sections of the document; a failed render comes from a visible skills section |
| AtsAnalyzer.PersonalCheck | src/utils/atsAnalyzer.ts:21-46 | 10 points exactly when the first personal section is visible and has all four fields; then a strength, otherwise the missing-fields or no-section issue |
| AtsAnalyzer.HasAllFieldsOfRecord | src/utils/atsAnalyzer.ts:25-26 | the required fields are first and last name, email and phone, all non-empty |
| AtsAnalyzer.PersonalProps | src/utils/atsAnalyzer.ts:25-26 | a personal record reads back its first name, last name, email and phone under their keys |
| AtsAnalyzer.PersonalPointsForRecord | src/utils/atsAnalyzer.ts:21-46 | for a personal record, the 10 points iff visible and all four fields non-empty |
| AtsAnalyzer.FoundAmongIsFilter | src/utils/atsAnalyzer.ts:172 | the keyword search is a `filter` |
| AtsAnalyzer.FindKeywordsMembers | src/utils/atsAnalyzer.ts:164-173 | exactly the database keywords whose lower-case text occurs, in database order, at most 35 |
| AtsAnalyzer.KeywordCheck | src/utils/atsAnalyzer.ts:48-70 | 20 points for 10 or more keywords, 10 for 5..9, 0 otherwise; one issue or one strength |
| AtsAnalyzer.KeywordCheckShaped | src/utils/atsAnalyzer.ts:48-70 | the keyword check names only the strong-keywords strength |
| AtsAnalyzer.FormattingIssues | src/utils/atsAnalyzer.ts:178-204 | no issue iff the font size (default 11) is 9..14 and the margin (default 20) 10..30; two issues iff both are out |
| AtsAnalyzer.FormattingCheck | src/utils/atsAnalyzer.ts:72-80 | 15 - 3 per issue (15, 12 or 9); a strength iff no issue |
| AtsAnalyzer.VisibleKinds | src/utils/atsAnalyzer.ts:212 | a kind is listed iff some visible section has it |
| AtsAnalyzer.CountPresentFull | src/utils/atsAnalyzer.ts:214-218 | the count is at most the number asked about, and reaches it iff all occur |
| AtsAnalyzer.PresentCount | src/utils/atsAnalyzer.ts:211-218 | at most four recommended kinds are present |
| AtsAnalyzer.StructurePointsValues | src/utils/atsAnalyzer.ts:216-220 | `round(3.75·k)` is 0, 4, 8, 11, 15; 12 or more iff k = 4 |
| AtsAnalyzer.CheckSectionStructure | src/utils/atsAnalyzer.ts:209-221 | the loop adds 3.75 per visible recommended kind, then rounds |
| AtsAnalyzer.StructureStrengthIff | src/utils/atsAnalyzer.ts:85-95 | 12 or more points exactly when every recommended kind has a visible section |
| AtsAnalyzer.StructureCheck | src/utils/atsAnalyzer.ts:82-95 | 0..15 points; the strength iff every recommended kind is visible, the issue otherwise |
| AtsAnalyzer.QualitySumCounts | src/utils/atsAnalyzer.ts:229-249 | five points per contributing section |
| AtsAnalyzer.CheckContentQuality | src/utils/atsAnalyzer.ts:226-252 | the loop gives five per contributing visible section, capped at 15 |
| AtsAnalyzer.ContentQualityBounds | src/utils/atsAnalyzer.ts:251 | content quality is 0, 5, 10 or 15, and 0 with no contributor |
| AtsAnalyzer.NoContributorScoresNone | src/utils/atsAnalyzer.ts:229-249 | with no contributing section the content sum is 0 |
| AtsAnalyzer.ContentCheck | src/utils/atsAnalyzer.ts:97-99 | 0..15 points and neither issues nor strengths |
| AtsAnalyzer.UnfriendlyIssues | src/utils/atsAnalyzer.ts:257-295 | at most three issues, none iff no table text, no image in the skills and a safe font |
| AtsAnalyzer.TableCheckIsOneSearch | src/utils/atsAnalyzer.ts:262 | finding `<table` implies finding `table` |
| AtsAnalyzer.UnfriendlyCheck | src/utils/atsAnalyzer.ts:101-109 | 10 - 2 per issue (10, 8, 6 or 4); a strength iff no issue |
| AtsAnalyzer.InconsistentItemCounted | src/utils/atsAnalyzer.ts:307-311 | an inconsistently dated item is counted |
| AtsAnalyzer.CountInconsistent | src/utils/atsAnalyzer.ts:307-313 | the inner loop counts the inconsistently dated items |
| AtsAnalyzer.CheckDateFormatting | src/utils/atsAnalyzer.ts:300-327 | one issue exactly when some array item is inconsistently dated, none otherwise |
| AtsAnalyzer.DateCheck | src/utils/atsAnalyzer.ts:111-118 | 10 points iff no issue, otherwise 0 and the one issue |
| AtsAnalyzer.MonthTextNeverDateLike | src/utils/atsAnalyzer.ts:302 | a seven-character `YYYY-MM` text matches neither date pattern |
| AtsAnalyzer.MonthDatedItemLosesDatePoints | src/utils/atsAnalyzer.ts:300-327 | one item dated by the editor's month inputs costs the 10 date points |
| AtsAnalyzer.InconsistentCountPositive | src/utils/atsAnalyzer.ts:304-313 | one inconsistently dated item in any section makes the count positive |
| AtsAnalyzer.Suggestions | src/utils/atsAnalyzer.ts:124-132 | one or two suggestions |
| AtsAnalyzer.Take | src/utils/atsAnalyzer.ts:137-139 | `slice(0, n)` is the first min(n, length) elements |
| AtsAnalyzer.PersonalStep | src/utils/atsAnalyzer.ts:21-46 | the step adds the personal check to the running state |
| AtsAnalyzer.KeywordStep | src/utils/atsAnalyzer.ts:48-70 | the step adds the keyword check |
| AtsAnalyzer.FormattingStep | src/utils/atsAnalyzer.ts:72-80 | the step adds the formatting check |
| AtsAnalyzer.StructureStep | src/utils/atsAnalyzer.ts:82-95 | the step adds the structure check |
| AtsAnalyzer.ContentStep | src/utils/atsAnalyzer.ts:97-99 | the step adds the content check |
| AtsAnalyzer.UnfriendlyStep | src/utils/atsAnalyzer.ts:101-109 | the step adds the unfriendly-elements check |
| AtsAnalyzer.DateStep | src/utils/atsAnalyzer.ts:111-118 | the step adds the date check |
| AtsAnalyzer.AnalyzeCVForATS | src/utils/atsAnalyzer.ts:14-141 | the method computes `Analyze` |
| AtsAnalyzer.FinishStep | src/utils/atsAnalyzer.ts:120-140 | the cap, the band suggestions and the three cuts give `Finish` |
| AtsAnalyzer.RunChecksShaped | src/utils/atsAnalyzer.ts:21-118 | every check's outcome has the points, issues and strengths its code can produce |
| AtsAnalyzer.CombineScore | src/utils/atsAnalyzer.ts:121 | the score is the sum of the points, at most 95 |
| AtsAnalyzer.TalliedParts | src/utils/atsAnalyzer.ts:14-118 | the running state adds the points and concatenates issues and strengths in check order |
| AtsAnalyzer.TalliedStrengths | src/utils/atsAnalyzer.ts:14-118 | the collected strengths are those of the six checks that name one, in check order |
| AtsAnalyzer.CombineIssues | src/utils/atsAnalyzer.ts:137 | at most nine issues arise, so the cut to ten keeps all |
| AtsAnalyzer.CombineBands | src/utils/atsAnalyzer.ts:124-132 | the suggestions are those of the score's band |
| AtsAnalyzer.CombineStrengths | src/utils/atsAnalyzer.ts:139 | at most six strengths; up to five are kept whole |
| AtsAnalyzer.AllSixStrengths | src/utils/atsAnalyzer.ts:14-118 | when all six hold, the date strength is the sixth |
| AtsAnalyzer.CombineAllStrengths | src/utils/atsAnalyzer.ts:139 | then the cut to five drops exactly the date strength |
| AtsAnalyzer.ScoreBounds | src/utils/atsAnalyzer.ts:121 | the score is the sum of the seven checks' points, between 0 and 95; totalPoints is 100 |
| AtsAnalyzer.NoIssueDropped | src/utils/atsAnalyzer.ts:137 | every reported issue is returned, in check order; at most nine |
| AtsAnalyzer.SuggestionBands | src/utils/atsAnalyzer.ts:124-132 | below 50 the two restructuring suggestions, below 75 the two improvement ones, otherwise the one well-optimised one |
| AtsAnalyzer.DateStrengthDropped | src/utils/atsAnalyzer.ts:137-139 | with all six strengths earned, five are returned and the date-consistency one is not |
| AtsAnalyzer.StrengthsKept | src/utils/atsAnalyzer.ts:139 | fewer than six strengths are returned whole |
| PdfGenerator.ItemLines | src/utils/pdfGenerator.ts:157-175 | at most four lines; none exactly when heading, organisation, start date and detail are all empty |
| PdfGenerator.TerminatedConcat | src/utils/pdfGenerator.ts:158-174 | newline-terminated lines concatenate |
| PdfGenerator.TerminatedJoin | src/utils/pdfGenerator.ts:158-174 | terminated lines are the lines joined by newlines plus a final one |
| PdfGenerator.ItemBlockTerminated | src/utils/pdfGenerator.ts:157-175 | `formatItem` is its lines, each ended by a newline |
| PdfGenerator.FormatItemLines | src/utils/pdfGenerator.ts:157-175 | for one-line fields, splitting the block at newlines gives back the item lines and one empty tail |
| PdfGenerator.WrittenBulletLine | src/utils/pdfGenerator.ts:161 | as written, an item's first line is the three characters `â€¢`, none of them U+2022, a space and the heading |
| PdfGenerator.CorrectedBulletLine | src/utils/pdfGenerator.ts:161 | corrected, an item's first line is U+2022, a space and the heading |
| PdfGenerator.FormatObjectLines | src/utils/pdfGenerator.ts:177-181 | one `key: value` line per entry, joined by newlines with no trailing one |
| PdfGenerator.FormatObjectEmpty | src/utils/pdfGenerator.ts:177-181 | an empty record formats as "" |
| PdfGenerator.Banner | src/utils/pdfGenerator.ts:131-133 | the banner starts with a newline and has 105 characters besides the title |
| PdfGenerator.BannerAppended | src/utils/pdfGenerator.ts:131-133 | the three `+=` append newline, 50 `=`, newline, upper-cased title, newline, 50 `=`, two newlines |
| PdfGenerator.SectionText | src/utils/pdfGenerator.ts:130-145 | with any bullet, every section text starts with the banner's newline and has at least its 105 characters |
| PdfGenerator.SectionsText | src/utils/pdfGenerator.ts:127-145 | with any bullet, at least 105 characters per section |
| PdfGenerator.ExportedMembers | src/utils/pdfGenerator.ts:127-129 | exported sections are exactly the visible ones, each as often as stored |
| PdfGenerator.ExportedSorted | src/utils/pdfGenerator.ts:129 | exported sections ascend by order |
| PdfGenerator.ExportedStable | src/utils/pdfGenerator.ts:129 | sections of equal order keep their stored order |
| PdfGenerator.ExportEmptyIff | src/utils/pdfGenerator.ts:124-148 | with either bullet, the export is "" exactly when no section is visible |
| PdfGenerator.HiddenIgnored | src/utils/pdfGenerator.ts:128 | with either bullet, dropping the hidden sections does not change the export |
| PdfGenerator.ExportAsText | src/utils/pdfGenerator.ts:124-148 | the loop builds `ExportText` with the bullet as written, `â€¢` |
| PdfGenerator.AppendSection | src/utils/pdfGenerator.ts:131-144 | one iteration appends the section's text with the bullet as written: banner, then each item and a newline, or the record lines, or the text |
| PdfGenerator.ItemAppended | src/utils/pdfGenerator.ts:136-139 | with any bullet, one more item and newline extend the items text |
| Validation.Find | src/lib/validation.ts:6 | the first index of a character, -1 when absent |
| Validation.EmailIff | src/lib/validation.ts:5-8 | the scan accepts exactly the strings the e-mail pattern matches |
| Validation.EmailPatternParts | src/lib/validation.ts:6 | the pattern's split points are where the scan finds the `@` and a `.` inside the domain |
| Validation.PasswordThreshold | src/lib/validation.ts:10-12 | six characters pass, five fail, lengthening keeps a password valid |
| Validation.RequiredFieldIff | src/lib/validation.ts:14-16 | a field passes exactly when some character is not whitespace |
| Validation.PhoneIff | src/lib/validation.ts:18-21 | "" passes; otherwise exactly the strings of digits, `+`, `-`, whitespace and parentheses |
| Validation.ValidateCV | src/lib/validation.ts:37-56 | no personal section, no errors; otherwise the errors of the first personal section's checks |
| Validation.CheckPersonal | src/lib/validation.ts:43-52 | the three pushes give `PersonalErrors`, a `TypeError` failure when a name is missing |
| Validation.ReportedSteps | src/lib/validation.ts:44-52 | the pushes build the reported list |
| Validation.ReportedOrdered | src/lib/validation.ts:44-52 | at most three errors, in the order first name, last name, email; each present iff its check fails |
| Auth.ExtractIff | src/lib/auth.ts:53-60 | a token comes out iff the header is `Bearer`, one space and a space-free token, and it is that token |
| Auth.BearerRoundTrip | src/lib/auth.ts:57-59 | `Bearer ` + a space-free token gives the token back |
| Auth.NoToken | src/lib/auth.ts:56-58 | a missing or empty header, or two spaces after `Bearer`, give no token |
| DateUtils.Pad2 | src/lib/dateUtils.ts:9 | the month in two digits |
| DateUtils.Pad2Value | src/lib/dateUtils.ts:9 | the two digits read back as the month |
| DateUtils.FormatDateReadsBack | src/lib/dateUtils.ts:5-13 | "" exactly for an empty argument; for a valid date, two digits, `/` and the year, each reading back |
| DateUtils.RangePresentIff | src/lib/dateUtils.ts:15-24 | `Present` exactly when the end is empty; the flag is ignored |
| DateUtils.LeadingDigits | src/lib/dateUtils.ts:45 | the longest prefix of digits |
| DateUtils.ParseDigits | src/lib/dateUtils.ts:45 | `parseInt` of digits is their value |
| DateUtils.SplitAtDash | src/lib/dateUtils.ts:29 | a dash-free year, a dash and digits split into the two |
| DateUtils.MonthYearOfDigits | src/lib/dateUtils.ts:26-46 | a digit month gives its English name, a space and the year; `undefined` outside 1..12 |
| DateUtils.MonthYearRoundTrip | src/lib/dateUtils.ts:26-46 | `YYYY-MM` with a month in range gives `Month YYYY` |
| DateUtils.MonthYearEdges | src/lib/dateUtils.ts:26-46 | "" gives ""; a text with no dash gives `undefined` and the text |
| DateUtils.DurationIsDistance | src/lib/dateUtils.ts:56-60 | the duration is the distance in months clamped at 0, and 0 exactly when the end is not after the start |
| DateUtils.DurationAdds | src/lib/dateUtils.ts:56-60 | durations of consecutive periods add up |
| DateUtils.DurationCurrentAndInvalid | src/lib/dateUtils.ts:53-54 | current work is measured to `now`, whatever the end; an unreadable date gives `NaN` |

## Left out

- Pagination and PDF rasterising (html2canvas, jsPDF, floating-point page heights), and `exportAsJSON`, which is only `JSON.stringify`. Foreign libraries.
- Server routes, database access, password hashing and tokens (bcrypt, jsonwebtoken, the clock), the auth store. I/O and crypto.
- `validateURL`: it depends on the host's `URL` parser.
- The pages and the render output itself (JSX, styles, rich-text HTML). The preview is modelled as the data of its blocks, not as markup: an experience, education, project or volunteering entry keeps only its heading and its date line (company, school, location, description, links and technologies are not kept); summaries keep their text; skills, certifications, languages and references keep their records.
- `Date.now()` ids, the `prompt`/`confirm` answers, the current month and `markAsSaved`'s time are parameters.
- `JSON.stringify`-derived texts in the ATS checks (the whole visible text, the sections text, the skills content text) are parameters (`AtsTexts`). The search over a serialisation is modelled; the serialisation is not.
- Strings.ToUpper, Strings.ToLower: ASCII letters only. JavaScript maps the whole of Unicode.
- Issue, strength and suggestion texts are enumerations with their text functions. The font-size and margin messages are the enumeration case with the number, not the interpolated string.
- `Math.round` of the structure points is computed exactly in quarters; the font size is an integer. A fractional font size is not modelled.
- The ATS score keeps `(currentScore / 100) * 100` as `currentScore`. In floating point the quotient times 100 can miss the integer by one unit in the last place ((29 / 100) * 100 is 28.999999999999996). The `Math.round` at src/utils/atsAnalyzer.ts:121 turns it back into the integer, so the model's final score is the one the code computes.
- Password length and all string lengths count code points, where JavaScript counts UTF-16 units. String order does follow UTF-16 units (Strings.LexCmp).
- `new Date` parsing and time zones: DateUtils takes a `DateInput` (empty, unreadable, or year and month), and certification dates are the editor's `YYYY-MM` month inputs.
- DateUtils.ParseInt: base 10 only; the `0x` prefix `parseInt` reads as hexadecimal and a leading `-` (which the split at `-` removes anyway) are not modelled.
- `Object.keys` order of a personal record: the export lists the keys in declaration order with the present optional ones; other key orders are not modelled.
- PdfGenerator.FormatObjectLines: stated for fields without newlines. A newline inside a field splits its line, which the model writes but does not state.
- Non-string values printed by `formatObject` (`[object Object]`, arrays) are modelled only for the skills record; other shapes cannot occur in the typed content.
- `updateSection`'s `Partial<CVSection>` is a record of optional fields; keys outside the section type cannot occur.
- CertificationSection.SortedForDisplay: with some dates missing, the comparator is not a consistent order. The result then depends on the engine's sort algorithm, so only the permutation is stated.
- Validation.ValidateCV: `validateRequiredField(undefined)` throws; this is the `Failure("TypeError")` result, not an exception.
- Editor UI state beyond the open, dragged and hovered section (expanded panels, form inputs) is not modelled.
- The skills editor's `setExpandedCategory` calls are UI state and are not modelled.

## Findings

| source | as written | input that shows it | evidently intended | confidence | as-written member | corrected member |
|---|---|---|---|---|---|---|
| src/utils/pdfGenerator.ts:161 | the bullet literal is the UTF-8 bytes of U+2022 read as Windows-1252, the three characters `â€¢` | any item with a title, e.g. `{title: "Engineer"}` exports `â€¢ Engineer` | a `•` (U+2022) bullet | not executed | PdfGenerator.WrittenBulletLine | PdfGenerator.CorrectedBulletLine |
| src/components/editor/sections/SkillsSection.tsx:72-90 | rename and delete compare the stored category with the group name, but skills with an empty category are listed under the name `Uncategorized` | one skill with category "" and the `Uncategorized` group's rename or delete button | the buttons act on the skills listed under the group | not executed | SkillsSection.UncategorizedGroupUnreachable | SkillsSection.RenameDisplayedEmptiesGroup |

For the first row, `PdfGenerator.FormatItemAsWritten` is the code as written, and
`PdfGenerator.ExportAsText` writes every item with it: its result is `ExportText(cv, WrittenBullet)`.
The corrected export is `ExportText(cv, Bullet)`, built from `PdfGenerator.FormatItem`; the export
lemmas hold for either bullet. For the second row,
`SkillsSection.RenameCategory` and `SkillsSection.DeleteCategory` are the handlers as written.
`RenameDisplayedCategory` and `DeleteDisplayedCategory` are the corrected ones.
