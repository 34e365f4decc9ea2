# First Responder Quick Notes — a verified model of the form and history logic

First Responder Quick Notes is a browser app for EMTs and firefighters. They use it to write quick notes and record incidents. This project models the app's logic in Dafny and proves properties of that model:

- **EMT incident screen** (`EmtIncident`): an append-only timeline, an append-only vitals log, condition chips that toggle, free-form notes, and the record handed to the app on save.
- **EMT history** (`EmtHistory`): the list filter. It applies a date window (all, today, last 7 days, last 30 days), then an AND over the selected conditions, then a case-insensitive substring search.
- **Firefighter new-incident form** (`FireIncident`). It recovers a draft or a duplicate from `localStorage` once, when the page module is evaluated; every later mount of the form in the same page session starts from that same recovered value (`FireIncidentModule`, `SaveThenRemount`). It has tag, unit, timeline and photo editors, and every field change autosaves the draft. On save it builds the new record and discards the draft.
- **Firefighter edit form** (`FireIncidentEdit`): it starts from a saved record, offers the same editors without autosave, and merges the edits into the record on save.
- **Firefighter history** (`FireHistory`) covers two things:
  - the de-duplicated tag and unit option lists, built by nested loops into a `Set`;
  - the pipeline of type, severity, tag and unit selects, a five-field search, and a stable newest/oldest sort.
- **The app controller** (`App`): the visible screen (`ViewState`), saving and deleting notes, saving an EMT incident (replace at an index or prepend), "continue", and the note on screen.
- **Note import** (`ImportNotes`): a parsed JSON value is narrowed to the array items that are objects with a string `id` and a string `content`.

Shared modules:

- `Seqs`: `Array.prototype.filter`, the subsequence relation, duplicate-freedom, first index.
- `Text`: `trim` with ECMAScript's white-space set, ASCII `toLowerCase`, and `includes`.
- `ListEdit`: the list editors shared by the forms.
- `Json`: JSON values with last-key-wins member lookup, and `JSON.parse`/`JSON.stringify` as a pair of functions.
- `Storage`: `localStorage` as a class whose one field is a `map<string, string>`.
- `FireData`: the Firefighter record and form datatypes and their pure updates.

Stateful pieces are classes whose fields are the component's state variables: the two Firefighter forms, the EMT form, the app controller and `localStorage`. Each handler is a method, and its `ensures` gives the whole new state. Pure computations are functions: filters, the sort, record building, import. Lemmas relate those functions to independent statements about them. The `allTags`/`allUnits` loops are `while` loops proved against a `Distinct` function.

Times are integers (milliseconds). The browser clock is a `Clock(now, offset)` value passed in, with the local-time offset held fixed. `crypto.randomUUID()` and the locale time strings are parameters. So are `JSON.parse` and `JSON.stringify`. Of them only a round-trip law is assumed, `Json.RoundTrips`, and only for the values a JavaScript object graph represents exactly (`Json.Canonical`: no object repeats a key or has an integer-like key, and every number is a safe integer).

## Model

| member | source | states |
|---|---|---|
| Seqs.Filter | frontend/src/pages/EMTIncidentHistory.tsx:53-102 | `.filter` keeps at most the input's length, only elements that satisfy the predicate, and every input element that does |
| Seqs.FilterIsSubsequence | frontend/src/pages/EMTIncidentHistory.tsx:53 | a filter's result is an order-preserving subsequence of its input |
| Seqs.FilterCount | frontend/src/utils/importNotes.ts:21-28 | each element passing the predicate occurs in the result exactly as often as in the input; others never |
| Seqs.FilterAll | frontend/src/pages/EMTIncidentHistory.tsx:53-102 | a predicate true of every element makes the filter the identity |
| Seqs.FilterAnd | frontend/src/pages/EMTIncidentHistory.tsx:53-102 | filtering by a conjunction equals filtering by one conjunct and then the other |
| Seqs.FilterAppend | frontend/src/pages/FireIncidentHistory.tsx:65-96 | filtering distributes over concatenation |
| Seqs.FilterExt | frontend/src/pages/FireIncidentHistory.tsx:65-96 | filters with pointwise equal predicates agree |
| Seqs.FilterMonotone | frontend/src/pages/EMTIncidentHistory.tsx:75-80 | a stronger predicate keeps a subsequence of what a weaker one keeps |
| Seqs.FilterIdempotent | frontend/src/utils/importNotes.ts:21-28 | filtering twice by the same predicate equals filtering once |
| Seqs.IndexOf | frontend/src/App.tsx:206 | the first position holding `x`: in range, holds `x`, and no earlier position does |
| Text.LeadingCount | frontend/src/pages/FireIncident.tsx:93 | the length of the leading run of white space that `trim` removes |
| Text.TrailingCount | frontend/src/pages/FireIncident.tsx:93 | the length of the trailing run of white space that `trim` removes |
| Text.Trim | frontend/src/pages/FireIncident.tsx:93-94 | `trim` gives the slice of the input left after dropping a white-space prefix and a white-space suffix, and that slice is empty or starts and ends with a non-white-space character |
| Text.TrimEmptyIff | frontend/src/pages/FireIncident.tsx:93 | `s.trim() !== ""` fails exactly when every character of `s` is white space |
| Text.TrimIdempotent | frontend/src/pages/FireIncident.tsx:93-94 | a trimmed string trims to itself |
| Text.Lower | frontend/src/pages/EMTIncidentHistory.tsx:83 | lower-casing keeps the length, leaves no upper-case ASCII letter and changes only upper-case letters |
| Text.LowerIdempotent | frontend/src/pages/EMTIncidentHistory.tsx:83-96 | lower-casing twice is lower-casing once |
| Text.IncludesIff | frontend/src/pages/EMTIncidentHistory.tsx:87 | `hay.includes(needle)` holds exactly when `needle` occurs at some position of `hay` |
| Text.IncludesWitness | frontend/src/pages/EMTIncidentHistory.tsx:87 | an included needle occurs at some position of the text |
| Text.OccursIncludes | frontend/src/pages/EMTIncidentHistory.tsx:87 | a needle occurring at any position is included |
| Text.IncludesEmpty | frontend/src/pages/FireIncidentHistory.tsx:88-95 | every string includes the empty string |
| ListEdit.RemoveAllSpec | frontend/src/pages/FireIncident.tsx:99-101 | `filter((t) => t !== x)` leaves no `x`, keeps the count of every other value, keeps order, and is the identity when `x` is absent |
| ListEdit.SubsequenceNoDup | frontend/src/pages/FireIncident.tsx:99-101 | a subsequence of a duplicate-free list is duplicate-free |
| ListEdit.SubsequenceMembers | frontend/src/pages/FireIncident.tsx:99-101 | every element of a subsequence is an element of the whole |
| ListEdit.ToggleSpec | frontend/src/pages/FireIncident.tsx:117-123 | the toggle flips the membership of the value, keeps every other value's count and keeps a duplicate-free list duplicate-free |
| ListEdit.ToggleTwiceAbsent | frontend/src/pages/FireIncident.tsx:117-123 | toggling an absent value twice restores the list exactly |
| ListEdit.ToggleTwicePresent | frontend/src/pages/FireIncident.tsx:117-123 | toggling a present value of a duplicate-free list twice gives the same elements, duplicate-free, with that value moved to the end |
| ListEdit.RestoreCount | frontend/src/pages/FireIncident.tsx:117-123 | appending the one copy of a value that was filtered out of a duplicate-free list gives back the list's multiset |
| ListEdit.NoDupCount | frontend/src/pages/FireIncident.tsx:117-123 | in a duplicate-free list every element occurs once |
| ListEdit.ToggleTwiceReorders | frontend/src/pages/FireIncident.tsx:117-123 | toggling "Engine 1" twice in ["Engine 1", "Ladder 3"] gives ["Ladder 3", "Engine 1"] |
| ListEdit.AddTrimmedSpec | frontend/src/pages/FireIncident.tsx:92-97 | `addTag`/`addCustomUnit` either leave list and box alone or append the trimmed, non-blank, new value and clear the box; a duplicate-free list stays duplicate-free |
| ListEdit.RemoveAt | frontend/src/pages/FireIncident.tsx:151-157 | removing by index drops exactly that position and keeps the rest in order; an index out of range changes nothing |
| Json.Get | frontend/src/utils/importNotes.ts:16 | a member lookup finds a value exactly when the key is present, and then it is the value of the last member with that key, as `JSON.parse` keeps |
| Json.GetUnique | frontend/src/utils/importNotes.ts:16 | with a key present once, the lookup finds that member's value |
| Json.CanonicalSubarray | frontend/src/utils/importNotes.ts:21-28 | the items kept from a canonical array form a canonical array |
| Storage.LocalStorage.constructor | frontend/src/hooks/useLocalNotes.ts:7 | the store starts with the given items |
| Storage.LocalStorage.GetItem | frontend/src/pages/FireIncident.tsx:47-48 | `getItem` is `null` exactly for an absent key and otherwise the stored string |
| Storage.LocalStorage.SetItem | frontend/src/pages/FireIncident.tsx:204 | `setItem` maps the key to the value and changes no other key |
| Storage.LocalStorage.RemoveItem | frontend/src/pages/FireIncident.tsx:52 | `removeItem` deletes the key and changes no other key; an absent key is a no-op |
| FireData.SavedSeverity | frontend/src/pages/FireIncident.tsx:230 | `severity \|\| undefined`: the empty choice is saved as absent, any other choice as itself |
| FireData.LoadedSeverity | frontend/src/pages/FireIncidentEdit.tsx:74 | an absent severity loads as the empty choice, a present one as itself |
| FireData.SeverityRoundTrip | frontend/src/pages/FireIncidentEdit.tsx:74 | saving then loading a severity choice gives it back |
| FireData.UploadPhoto | frontend/src/pages/FireIncident.tsx:165-181 | no file: nothing changes; three or more photos: "Maximum of 3 photos allowed." and no new photo; a failed compression: "Failed to process image."; otherwise the photo is appended and the error cleared |
| FireData.UploadPhotoCap | frontend/src/pages/FireIncident.tsx:168-171 | an upload never takes a list of at most three past three, adds at most one photo, and never changes a full list |
| FireData.AddTimelineEvent | frontend/src/pages/FireIncident.tsx:138-149 | a non-blank event appends exactly one `{time, trimmed event}` and keeps the earlier rows; a blank one changes nothing |
| FireData.WithText | frontend/src/pages/FireIncident.tsx:69-77 | editing a text field sets exactly that field to the new value; the other four text fields, severity, tags, units, timeline and photos stay as they were |
| FireIncident.StringsJson | frontend/src/pages/FireIncident.tsx:191-204 | a string list is stringified element by element |
| FireIncident.EntriesJson | frontend/src/pages/FireIncident.tsx:191-204 | a timeline is stringified row by row |
| FireIncident.InitialFields | frontend/src/pages/FireIncident.tsx:69-90 | with no recovered data every field starts empty |
| FireIncident.StringsRoundTrip | frontend/src/pages/FireIncident.tsx:90 | reading back a stringified string list gives the list |
| FireIncident.EntryRoundTrip | frontend/src/pages/FireIncident.tsx:135 | reading back a stringified timeline row gives the row |
| FireIncident.EntriesRoundTrip | frontend/src/pages/FireIncident.tsx:135 | reading back a stringified timeline gives the timeline |
| FireIncident.DraftMember | frontend/src/pages/FireIncident.tsx:191-202 | each of the ten draft keys occurs once in the draft object, so lookup finds its field |
| FireIncident.DraftMembers | frontend/src/pages/FireIncident.tsx:191-202 | the draft object holds every one of the ten form fields under its own key |
| FireIncident.DraftText | frontend/src/pages/FireIncident.tsx:69-90 | each of the six text members of a draft reads back as the string it was saved from |
| FireIncident.DraftItems | frontend/src/pages/FireIncident.tsx:69-90 | each of the four list members of a draft reads back as the array it was saved from |
| FireIncident.DraftRoundTrip | frontend/src/pages/FireIncident.tsx:69-90 | initialising the form from a saved draft object restores all ten fields |
| FireIncident.EntryCanonical | frontend/src/pages/FireIncident.tsx:146 | a timeline row object has two distinct non-numeric keys and string values |
| FireIncident.DraftKeysDistinct | frontend/src/pages/FireIncident.tsx:191-202 | no two members of the draft object share a key |
| FireIncident.DraftCanonical | frontend/src/pages/FireIncident.tsx:191-202 | the draft object has ten distinct non-numeric keys and canonical values, so the round-trip law applies to it |
| FireIncident.LoadOutcomePriority | frontend/src/pages/FireIncident.tsx:46-61 | a duplicate wins over a draft; a draft is used when there is no duplicate; with neither the result is `null` |
| FireIncident.LoadInitialData | frontend/src/pages/FireIncident.tsx:46-61 | the result is the priority rule applied to the stored values; the duplicate key is removed only when it was set and parsed, and the draft key is never touched |
| FireIncident.NewRecord | frontend/src/pages/FireIncident.tsx:221-235 | the new record has the given id and timestamp, absent severity exactly for the empty choice, and all four lists present |
| FireIncident.FireIncidentForm.constructor | frontend/src/pages/FireIncident.tsx:65-163 | the form starts from the given recovered data with empty input boxes, and the first autosave stores the draft |
| FireIncident.FireIncidentForm.Autosave | frontend/src/pages/FireIncident.tsx:190-216 | the draft key holds the stringified ten fields; no other key changes |
| FireIncident.FireIncidentForm.SetText | frontend/src/pages/FireIncident.tsx:264-331 | typing replaces one text field and keeps the input boxes; the draft is rewritten exactly when a field changed, after which it is current |
| FireIncident.FireIncidentForm.SetSeverity | frontend/src/pages/FireIncident.tsx:281-285 | choosing a severity replaces only the severity; the draft is rewritten exactly when the choice changed |
| FireIncident.FireIncidentForm.SetTagInput | frontend/src/pages/FireIncident.tsx:342 | typing in the tag box changes no saved field and writes nothing, so a current draft stays current |
| FireIncident.FireIncidentForm.SetCustomUnit | frontend/src/pages/FireIncident.tsx:387 | typing in the unit box changes no saved field and writes nothing, so a current draft stays current |
| FireIncident.FireIncidentForm.SetTimelineEvent | frontend/src/pages/FireIncident.tsx:419 | typing in the event box changes no saved field and writes nothing, so a current draft stays current |
| FireIncident.FireIncidentForm.AddTag | frontend/src/pages/FireIncident.tsx:92-97 | tags and tag box change as `addTag` says; nothing else changes; the draft is rewritten exactly when the tag was added |
| FireIncident.FireIncidentForm.RemoveTag | frontend/src/pages/FireIncident.tsx:99-101 | every copy of the tag goes; the others stay in order; the new list always re-runs the autosave, so the draft is current |
| FireIncident.FireIncidentForm.ToggleUnit | frontend/src/pages/FireIncident.tsx:117-123 | the unit is removed if present and appended if absent; the draft is rewritten and current |
| FireIncident.FireIncidentForm.AddCustomUnit | frontend/src/pages/FireIncident.tsx:125-130 | units and unit box change as `addCustomUnit` says; the draft is rewritten exactly when the unit was added |
| FireIncident.FireIncidentForm.AddTimelineEvent | frontend/src/pages/FireIncident.tsx:138-149 | a non-blank event appends one row, clears the box and rewrites the draft; a blank one changes nothing |
| FireIncident.FireIncidentForm.RemoveTimelineEvent | frontend/src/pages/FireIncident.tsx:151-157 | exactly that row goes; the draft is rewritten and current |
| FireIncident.FireIncidentForm.HandlePhotoUpload | frontend/src/pages/FireIncident.tsx:165-181 | photos and error change as the upload rule says; at most three photos stay at most three; the draft is rewritten exactly when a photo was added |
| FireIncident.FireIncidentForm.RemovePhoto | frontend/src/pages/FireIncident.tsx:183-185 | exactly that photo goes; the draft is rewritten and current |
| FireIncident.FireIncidentForm.HandleSave | frontend/src/pages/FireIncident.tsx:221-239 | the emitted record is built from the ten fields, and the draft key is removed |
| FireIncident.FireIncidentModule.constructor | frontend/src/pages/FireIncident.tsx:63 | the evaluated module holds the value `loadInitialData` returned |
| FireIncident.FireIncidentModule.Mount | frontend/src/pages/FireIncident.tsx:63-90 | every mount starts the form from the module-level `initial`, whatever the store now holds, and its first autosave writes that draft |
| FireIncident.LoadModule | frontend/src/pages/FireIncident.tsx:46-63 | evaluating the module runs `loadInitialData` once; it fails exactly when a truthy duplicate or draft does not parse, and otherwise holds the loaded value |
| FireIncident.SaveThenRemount | frontend/src/pages/FireIncident.tsx:63-90 | saving and mounting the form again in the same page session starts from the stale module-level fields and writes them back under the draft key the save removed; a waiting duplicate is not read |
| FireIncident.ReloadRestoresDraft | frontend/src/pages/FireIncident.tsx:46-90 | after any autosave, evaluating the module again with no duplicate waiting and mounting the form restores the same ten fields |
| FireIncidentEdit.EditFields | frontend/src/pages/FireIncidentEdit.tsx:61-155 | the edit form starts from the record, with absent severity as "" and absent lists as empty |
| FireIncidentEdit.MergeEdit | frontend/src/pages/FireIncidentEdit.tsx:183-196 | the merged record keeps the original id and timestamp, and its severity is absent exactly for the empty choice |
| FireIncidentEdit.EditRoundTrip | frontend/src/pages/FireIncidentEdit.tsx:183-196 | reopening a saved edit shows exactly the ten fields that were saved |
| FireIncidentEdit.MergeDependsOnlyOnIdentity | frontend/src/pages/FireIncidentEdit.tsx:184-196 | the saved edit depends on the original only through its id and timestamp |
| FireIncidentEdit.UneditedSave | frontend/src/pages/FireIncidentEdit.tsx:183-196 | saving without edits keeps every field up to the normal form: missing lists become empty; a record already in normal form is unchanged |
| FireIncidentEdit.NewRecordOpensUnchanged | frontend/src/pages/FireIncidentEdit.tsx:61-155 | a record saved by the new-incident form opens in the edit form with the fields it was saved with |
| FireIncidentEdit.FireIncidentEditForm.constructor | frontend/src/pages/FireIncidentEdit.tsx:52-156 | the edit form holds the record, its index, the record's fields and empty input boxes |
| FireIncidentEdit.FireIncidentEditForm.SetText | frontend/src/pages/FireIncidentEdit.tsx:224-290 | typing replaces one text field and keeps the input boxes |
| FireIncidentEdit.FireIncidentEditForm.SetSeverity | frontend/src/pages/FireIncidentEdit.tsx:240-244 | choosing a severity replaces only the severity |
| FireIncidentEdit.FireIncidentEditForm.SetTagInput | frontend/src/pages/FireIncidentEdit.tsx:301 | typing in the tag box changes no saved field |
| FireIncidentEdit.FireIncidentEditForm.SetCustomUnit | frontend/src/pages/FireIncidentEdit.tsx:346 | typing in the unit box changes no saved field |
| FireIncidentEdit.FireIncidentEditForm.SetTimelineEvent | frontend/src/pages/FireIncidentEdit.tsx:378 | typing in the event box changes no saved field |
| FireIncidentEdit.FireIncidentEditForm.AddTag | frontend/src/pages/FireIncidentEdit.tsx:82-87 | the same add rule as the new-incident form; a duplicate-free tag list stays duplicate-free |
| FireIncidentEdit.FireIncidentEditForm.RemoveTag | frontend/src/pages/FireIncidentEdit.tsx:89-91 | every copy of the tag goes; a duplicate-free list stays duplicate-free |
| FireIncidentEdit.FireIncidentEditForm.ToggleUnit | frontend/src/pages/FireIncidentEdit.tsx:107-113 | the toggle rule; a duplicate-free unit list stays duplicate-free |
| FireIncidentEdit.FireIncidentEditForm.AddCustomUnit | frontend/src/pages/FireIncidentEdit.tsx:115-120 | the add rule for units; a duplicate-free unit list stays duplicate-free |
| FireIncidentEdit.FireIncidentEditForm.AddTimelineEvent | frontend/src/pages/FireIncidentEdit.tsx:130-144 | a non-blank event appends one row and clears the box; a blank one changes nothing |
| FireIncidentEdit.FireIncidentEditForm.RemoveTimelineEvent | frontend/src/pages/FireIncidentEdit.tsx:146-150 | exactly that row goes |
| FireIncidentEdit.FireIncidentEditForm.HandlePhotoUpload | frontend/src/pages/FireIncidentEdit.tsx:158-174 | the upload rule; at most three photos stay at most three |
| FireIncidentEdit.FireIncidentEditForm.RemovePhoto | frontend/src/pages/FireIncidentEdit.tsx:176-178 | exactly that photo goes |
| FireIncidentEdit.FireIncidentEditForm.HandleSave | frontend/src/pages/FireIncidentEdit.tsx:183-200 | the emitted record is the merge of the original with the ten fields, the index is the one the form was opened with, and `fire_in_progress` is removed |
| EmtIncident.EventEntry | frontend/src/pages/EMTIncident.tsx:48-51 | a timeline entry is the label, the " — " separator and the time, in that order |
| EmtIncident.VitalEntry | frontend/src/pages/EMTIncident.tsx:111-114 | a vitals entry is an event entry whose label is the vital followed by " recorded" |
| EmtIncident.TimelineLabelsPrefixFree | frontend/src/pages/EMTIncident.tsx:84-91 | no quick-action label is a prefix of another |
| EmtIncident.VitalLabelsPrefixFree | frontend/src/pages/EMTIncident.tsx:108 | no vitals label is a prefix of another |
| EmtIncident.EntryDecodes | frontend/src/pages/EMTIncident.tsx:48-51 | with prefix-free labels, an entry determines the button pressed and the time |
| EmtIncident.EmtIncidentForm.constructor | frontend/src/pages/EMTIncident.tsx:33-43 | a fresh workspace has empty logs, no conditions and no notes |
| EmtIncident.EmtIncidentForm.AddEvent | frontend/src/pages/EMTIncident.tsx:48-51 | exactly one entry is appended to the timeline; earlier entries and all else are unchanged |
| EmtIncident.EmtIncidentForm.RecordVitals | frontend/src/pages/EMTIncident.tsx:111-114 | exactly one entry is appended to the vitals log; nothing else changes |
| EmtIncident.EmtIncidentForm.ToggleCondition | frontend/src/pages/EMTIncident.tsx:140-146 | the condition is removed if present, appended if absent; a duplicate-free list of chip labels stays one |
| EmtIncident.EmtIncidentForm.SetNotes | frontend/src/pages/EMTIncident.tsx:164 | typing replaces the notes only |
| EmtIncident.EmtIncidentForm.HandleSave | frontend/src/pages/EMTIncident.tsx:56-66 | the record holds the current timeline, notes, vitals and conditions unchanged, and the save instant |
| EmtHistory.Cutoff | frontend/src/pages/EMTIncidentHistory.tsx:63-64 | moving the calendar date back `n` days at the same local time is the instant `now − n·86400000` |
| EmtHistory.FilterIncidents | frontend/src/pages/EMTIncidentHistory.tsx:53-102 | the list is an order-preserving subsequence holding exactly the matching records, each as often as saved |
| EmtHistory.NoCriteriaIsIdentity | frontend/src/pages/EMTIncidentHistory.tsx:41-102 | with no search, no chips and "all" dates the list equals the saved incidents |
| EmtHistory.TodayWindow | frontend/src/pages/EMTIncidentHistory.tsx:57-60 | "today" keeps a record exactly when it was created between this local midnight and the next |
| EmtHistory.WindowCutoffs | frontend/src/pages/EMTIncidentHistory.tsx:62-72 | "7" and "30" keep exactly the records no older than that many days; a record at the cutoff is kept |
| EmtHistory.WindowsNested | frontend/src/pages/EMTIncidentHistory.tsx:57-72 | for past records, today ⊆ last 7 days ⊆ last 30 days |
| EmtHistory.SearchFields | frontend/src/pages/EMTIncidentHistory.tsx:86-96 | the searched text is the notes followed by every timeline, vitals and condition entry, in that order; a string is searched exactly when it is the notes or one of those entries |
| EmtHistory.SomeIncludesIff | frontend/src/pages/EMTIncidentHistory.tsx:88-96 | `entries.some((e) => e.toLowerCase().includes(q))` holds exactly when `q` occurs in some lower-cased entry |
| EmtHistory.SearchMeaning | frontend/src/pages/EMTIncidentHistory.tsx:83-99 | a non-empty search keeps a record exactly when the lower-cased query occurs in the lower-cased notes or an entry |
| EmtHistory.SearchIgnoresQueryCase | frontend/src/pages/EMTIncidentHistory.tsx:83 | the query's case does not matter |
| EmtHistory.AddedConditionNarrows | frontend/src/pages/EMTIncidentHistory.tsx:75-80 | one more chip keeps exactly the records kept before that carry the condition (AND) |
| EmtHistory.AddedConditionShrinks | frontend/src/pages/EMTIncidentHistory.tsx:75-80 | one more chip can only shorten the list, keeping its order |
| EmtHistory.ChipToggle | frontend/src/pages/EMTIncidentHistory.tsx:141-146 | pressing an unselected chip narrows to the records with that condition, and the selection stays duplicate-free |
| EmtHistory.ReportedIndexMismatch | frontend/src/pages/EMTIncidentHistory.tsx:187-190 | with one chip selected, the first listed record is the second saved one, but index 0 is reported and the first saved one opens |
| EmtHistory.SourceIndex | frontend/src/App.tsx:196-208 | the index of the `k`-th listed record in the saved list: the detail screen at that index shows that record |
| FireHistory.FlattenMembers | frontend/src/pages/FireIncidentHistory.tsx:42 | a string is in the flattened lists exactly when it is in one of the present lists |
| FireHistory.Distinct | frontend/src/pages/FireIncidentHistory.tsx:41-43 | the first-seen list is duplicate-free and has the same elements as its input |
| FireHistory.DistinctFirstSeen | frontend/src/pages/FireIncidentHistory.tsx:41-43 | earlier in the first-seen list means first seen earlier in the input |
| FireHistory.DistinctAppend | frontend/src/pages/FireIncidentHistory.tsx:42 | `set.add(x)` appends `x` to the first-seen list only when it is new |
| FireHistory.CollectDistinct | frontend/src/pages/FireIncidentHistory.tsx:40-50 | the nested loops build exactly the first-seen list of all items |
| FireHistory.AddEach | frontend/src/pages/FireIncidentHistory.tsx:42 | the inner loop extends the first-seen list by each item in turn |
| FireHistory.AllTags | frontend/src/pages/FireIncidentHistory.tsx:40-44 | `allTags` has no duplicates, holds exactly the tags of all incidents, in first-seen order |
| FireHistory.AllUnits | frontend/src/pages/FireIncidentHistory.tsx:46-50 | `allUnits` has no duplicates, holds exactly the units of all incidents, in first-seen order |
| FireHistory.Insert | frontend/src/pages/FireIncidentHistory.tsx:97-101 | inserting adds exactly one element |
| FireHistory.InsertSorted | frontend/src/pages/FireIncidentHistory.tsx:97-101 | inserting into a sorted list keeps it sorted |
| FireHistory.InsertAfterHead | frontend/src/pages/FireIncidentHistory.tsx:97-101 | nothing placed after the head of a sorted list goes strictly before that head |
| FireHistory.SortByTime | frontend/src/pages/FireIncidentHistory.tsx:97-101 | the sort gives a permutation of its input in comparator order |
| FireHistory.InsertStable | frontend/src/pages/FireIncidentHistory.tsx:97-101 | insertion puts an element before every element with its timestamp |
| FireHistory.SortStable | frontend/src/pages/FireIncidentHistory.tsx:97-101 | incidents with equal timestamps keep their input order |
| FireHistory.Filtered | frontend/src/pages/FireIncidentHistory.tsx:65-101 | the list holds exactly the matching incidents, each as often as saved; newest first timestamps do not increase, oldest first they do not decrease; ties keep input order |
| FireHistory.NoFiltersKeepsAll | frontend/src/pages/FireIncidentHistory.tsx:30-35 | with the initial controls every incident is listed |
| FireHistory.AllImposesNothing | frontend/src/pages/FireIncidentHistory.tsx:68-85 | setting a select to "all" never removes an incident, and "all" on every select leaves only the search |
| FireHistory.MissingListsRejected | frontend/src/pages/FireIncidentHistory.tsx:78-85 | with a tag or unit selected, an incident without that list is not listed |
| FireHistory.SearchScope | frontend/src/pages/FireIncidentHistory.tsx:88-95 | the empty search matches everything, and tags and units never affect the search |
| FireHistory.ReportedIndexMismatch | frontend/src/pages/FireIncidentHistory.tsx:237-240 | with the initial controls and two incidents saved oldest first, position 0 is the second saved incident |
| FireHistory.SourceIndex | frontend/src/pages/FireIncidentHistory.tsx:237-240 | the index in the saved list of the `k`-th listed incident |
| ImportNotes.Import | frontend/src/utils/importNotes.ts:14-32 | a parse failure or a non-array gives []; every result is an object with string `id` and `content`; the result is an order-preserving subsequence containing every valid item |
| ImportNotes.ImportCounts | frontend/src/utils/importNotes.ts:21-28 | each valid item is imported as often as it occurs; invalid ones never |
| ImportNotes.ImportAllValid | frontend/src/utils/importNotes.ts:21-28 | an array of valid items is imported whole, in order |
| ImportNotes.ImportIdempotent | frontend/src/utils/importNotes.ts:21-28 | importing imported notes changes nothing |
| ImportNotes.ExportImportRoundTrip | frontend/src/utils/importNotes.ts:14-32 | for a parsed value a JavaScript object graph represents exactly, stringifying the imported notes and importing the text gives the same notes |
| App.FindNote | frontend/src/App.tsx:128-129 | `find` gives none exactly when no note has the id, and otherwise the first note that has it |
| App.WithoutId | frontend/src/App.tsx:89-92 | the kept notes all have another id, every note with another id is kept, and the order is kept |
| App.WithoutIdCounts | frontend/src/App.tsx:90 | deleting keeps each other note exactly as often as before and drops every note with the id |
| App.DeleteAfterSave | frontend/src/App.tsx:81-92 | saving then deleting a note equals deleting alone |
| App.SavedNoteIsFound | frontend/src/App.tsx:81-84 | a saved note is what `currentNote` finds under its id |
| App.ReplaceSlot | frontend/src/App.tsx:116-119 | replacing slot `i` keeps the length and every other slot |
| App.AppState.constructor | frontend/src/App.tsx:59-65 | the app starts on the home screen with the loaded notes and incidents |
| App.AppState.CurrentNote | frontend/src/App.tsx:127-129 | `currentNote` is none off the note screen, and otherwise the first note with the screen's id |
| App.AppState.ViewedIncident | frontend/src/App.tsx:204-209 | the detail screen shows `incidents[view.index]` when that exists, and under the app invariant it always exists on the detail screen |
| App.AppState.Navigate | frontend/src/App.tsx:151-223 | a screen change replaces the view and nothing else |
| App.AppState.HandleSave | frontend/src/App.tsx:81-84 | the note goes first, its screen opens, and it is the note on screen |
| App.AppState.HandleDelete | frontend/src/App.tsx:89-92 | exactly the notes with that id go, the others stay in order, and home opens |
| App.AppState.HandleSaveIncident | frontend/src/App.tsx:115-125 | with an index, only that slot is replaced; without one, the incident is prepended; either way the EMT dashboard opens |
| App.AppState.OnContinue | frontend/src/App.tsx:164-168 | with saved incidents the first opens for editing; with none the view is unchanged |
| App.AppState.SelectFromHistory | frontend/src/App.tsx:196-198 | as written: the filtered-list position `k` becomes the view's index into the saved list |
| App.AppState.SelectListed | frontend/src/App.tsx:196-208 | opening the `k`-th listed incident by its saved index shows exactly that incident |

## Left out

- `compressImage` (canvas drawing, floating-point scaling, JPEG encoding) is not modelled. An upload is `FireData.PhotoUpload`: no file, a failed compression, or an opaque data URL.
- `handlePhotoUpload` is asynchronous, and two uploads in flight at once are not modelled. Each upload is taken as one atomic step on the state when it starts.
- React state updates are modelled as taking effect at once. Rendering and re-render batching are not modelled. The autosave effect runs as part of each method that changes one of its ten dependencies: a text or severity setter given the value it already holds re-runs nothing, and every `filter` or spread builds a new array, which always re-runs it.
- The presentational components and all JSX and CSS are not part of this model: `NoteCard`, `ViewNote`, `Home`, `Navbar`, `Button`, `EMTDashboard`, `EMTIncidentView`, `NewNote`.
- `generateIncidentPDF.ts` (jsPDF calls), `PhotoCapture.tsx` (async FileReader) and `useGeoLocation.ts` (async geolocation) are not modelled.
- The storage hooks, `exportNotes.ts`, `formatTimestamp.ts` and `useTimestamp.ts` are thin wrappers over `localStorage`, `JSON` and locale formatting. `App.AppState.constructor` takes the loaded lists as parameters.
- The backend and the build configuration are not modelled.
- Not modelled in `App.tsx`: the theme effect (DOM classes), `handleExport` (Blob and download link), and the Settings screen (its source is not part of this model).
- Locale formatting (`toLocaleTimeString`, `toLocaleString`) and `crypto.randomUUID()` are parameters.
- Dates are instants in milliseconds. An EMT incident's ISO `createdAt` string is taken as already parsed. So is a Firefighter incident's `timestamp`, which the form writes with `toLocaleString`. Invalid dates (`NaN`), which compare false with everything, are not modelled.
- EmtHistory.LocalDay: the local-time offset is one fixed value, so daylight-saving changes inside a 7- or 30-day window are not modelled.
- Text.Lower: only ASCII `A`–`Z` are lower-cased. Unicode case mapping is not modelled.
- Json.Json: numbers are integers. `JSON.parse`/`JSON.stringify` are parameters. Only their round-trip law (`Json.RoundTrips`) is assumed, and only for canonical values. How the browser reorders integer-like keys or merges repeated keys of other values is not modelled.
- ImportNotes.ExportImportRoundTrip: stated only for a parsed value that is canonical. For text with a repeated key or an integer-like key the imported objects keep members that exporting and importing again would merge or reorder, so the notes need not come back equal as values.
- FireIncident.InitialFields: a recovered field of an unexpected JSON type reads as its empty default. A list keeps only its string elements or its well-formed timeline rows. The code itself would take such values into the form as they are.
- When the recovered text does not parse, `loadInitialData` throws while the module is evaluated. `FireIncident.LoadModule` returns None there; what the browser then shows is not modelled.
- App.AppState.HandleSaveIncident: requires an edit index inside the list. In JavaScript, assigning past the end leaves holes and a negative index adds a property; neither can be expressed over a `seq`.
- `EMTIncident.tsx` declares neither `initialData` nor `editIndex` among its props. Its `onSave` always passes one argument, so the replace-at-index path of `handleSaveIncident` is never reached from the edit screen. It is modelled as written anyway.
- `ViewState` in `App.tsx` has no Firefighter screens, although `FireIncidentHistory.tsx` sets `fire-view` and `fire-dashboard`. The screen that consumes the Firefighter history's index is not part of this model. `FireHistory.ReportedIndexMismatch` shows only that the reported index is a position in the filtered, sorted list.
- App.AppState.Navigate: stands for the screen buttons that only call `setView`. Its precondition keeps incident indices in range because the app only ever builds such views.
- ListEdit.ToggleTwicePresent: toggling a present value twice restores the same elements, not the same list, because the value moves to the end. `ListEdit.ToggleTwiceReorders` gives an instance.
- EmtIncident.EmtIncidentForm.ToggleCondition: keeps the list made of chip labels only when the toggled value is a chip label, which is always true on this screen.

## Findings

| source | as written | input that shows it | evidently intended | confidence | as-written member | corrected member |
|---|---|---|---|---|---|---|
| frontend/src/pages/EMTIncidentHistory.tsx:187-190 | the history screen reports a record's position in the filtered list, and `App.tsx` opens that position of the saved list | two saved incidents; only the second has "Shock"; the "Shock" chip is selected; the user clicks the one listed incident, and the first saved one is shown | open the incident that was clicked, by its index in the saved list | high (not executed) | EmtHistory.ReportedIndexMismatch | EmtHistory.SourceIndex |
