/**
 * The new-Firefighter-incident form (`pages/FireIncident.tsx`): draft and
 * duplicate recovery at module load, the form state and its editors, the
 * autosave of the draft after every change, and the save handler.
 */
module FireIncident {
  import opened Wrappers
  import opened Json
  import opened Storage
  import opened FireData
  import ListEdit
  import Text

  /** The key the autosave effect writes and the save handler removes. */
  const DraftKey := "fire_in_progress"
  /** The one-shot key another screen leaves behind to start a copy of an incident. */
  const DuplicateKey := "fire_duplicate_temp"

  // ------------------------------------------------------------------
  // The draft as the autosave effect writes it
  // ------------------------------------------------------------------

  function StringsJson(s: seq<string>): (r: seq<Json>)
    ensures |r| == |s|
    ensures forall i :: 0 <= i < |s| ==> r[i] == JString(s[i])
  {
    seq(|s|, i requires 0 <= i < |s| => JString(s[i]))
  }

  function EntryJson(e: TimelineEntry): Json {
    JObject([("time", JString(e.time)), ("event", JString(e.event))])
  }

  function EntriesJson(s: seq<TimelineEntry>): (r: seq<Json>)
    ensures |r| == |s|
    ensures forall i :: 0 <= i < |s| ==> r[i] == EntryJson(s[i])
  {
    seq(|s|, i requires 0 <= i < |s| => EntryJson(s[i]))
  }

  /** The object `{fireType, arrivalConditions, …, photos}` that the autosave effect stringifies. */
  function DraftJson(f: FormFields): Json {
    JObject([
      ("fireType", JString(f.fireType)),
      ("arrivalConditions", JString(f.arrivalConditions)),
      ("hazards", JString(f.hazards)),
      ("actionsTaken", JString(f.actionsTaken)),
      ("notes", JString(f.notes)),
      ("severity", JString(f.severity)),
      ("tags", JArray(StringsJson(f.tags))),
      ("units", JArray(StringsJson(f.units))),
      ("timeline", JArray(EntriesJson(f.timeline))),
      ("photos", JArray(StringsJson(f.photos)))])
  }

  // ------------------------------------------------------------------
  // Reading the initial state back: `initial?.field || default`
  // ------------------------------------------------------------------

  /** `initial?.key || ""` for a text field. */
  function TextOf(initial: Option<Json>, key: string): string {
    match initial
    case Some(j) => GetString(j, key).GetOr("")
    case None => ""
  }

  /** The elements of `initial?.key` when it is an array, else none. */
  function ItemsOf(initial: Option<Json>, key: string): seq<Json> {
    match initial
    case Some(JObject(m)) =>
      (match Get(m, key)
       case Some(JArray(items)) => items
       case _ => [])
    case _ => []
  }

  /** The string elements of a JSON array, in order. */
  function StringsOf(items: seq<Json>): seq<string> {
    if items == [] then []
    else (if items[0].JString? then [items[0].s] else []) + StringsOf(items[1..])
  }

  /** The elements of a JSON array that are `{time, event}` objects with string fields, in order. */
  function EntriesOf(items: seq<Json>): seq<TimelineEntry> {
    if items == [] then []
    else
      var head := match (GetString(items[0], "time"), GetString(items[0], "event"))
                  case (Some(t), Some(e)) => [TimelineEntry(t, e)]
                  case _ => [];
      head + EntriesOf(items[1..])
  }

  /** The form's initial state computed from the loaded draft or duplicate (None: start empty). */
  function InitialFields(initial: Option<Json>): (r: FormFields)
    ensures initial.None? ==> r == FormFields("", "", "", "", "", "", [], [], [], [])
  {
    FormFields(
      TextOf(initial, "fireType"),
      TextOf(initial, "arrivalConditions"),
      TextOf(initial, "hazards"),
      TextOf(initial, "actionsTaken"),
      TextOf(initial, "notes"),
      TextOf(initial, "severity"),
      StringsOf(ItemsOf(initial, "tags")),
      StringsOf(ItemsOf(initial, "units")),
      EntriesOf(ItemsOf(initial, "timeline")),
      StringsOf(ItemsOf(initial, "photos")))
  }

  lemma {:induction false} StringsRoundTrip(s: seq<string>)
    ensures StringsOf(StringsJson(s)) == s
    decreases s
  {
    if s != [] {
      assert StringsJson(s)[1..] == StringsJson(s[1..]);
      StringsRoundTrip(s[1..]);
    }
  }

  lemma EntryRoundTrip(e: TimelineEntry)
    ensures GetString(EntryJson(e), "time") == Some(e.time)
    ensures GetString(EntryJson(e), "event") == Some(e.event)
  {
    var m := EntryJson(e).members;
    assert "event" != "time";
    GetUnique(m, "time", 0);
    GetUnique(m, "event", 1);
  }

  lemma {:induction false} EntriesRoundTrip(s: seq<TimelineEntry>)
    ensures EntriesOf(EntriesJson(s)) == s
    decreases s
  {
    if s != [] {
      EntryRoundTrip(s[0]);
      assert EntriesJson(s)[1..] == EntriesJson(s[1..]);
      EntriesRoundTrip(s[1..]);
    }
  }

  /** Looking up each key of the draft object finds the value stored under it. */
  lemma DraftMembers(f: FormFields)
    ensures Get(DraftJson(f).members, "fireType") == Some(JString(f.fireType))
    ensures Get(DraftJson(f).members, "arrivalConditions") == Some(JString(f.arrivalConditions))
    ensures Get(DraftJson(f).members, "hazards") == Some(JString(f.hazards))
    ensures Get(DraftJson(f).members, "actionsTaken") == Some(JString(f.actionsTaken))
    ensures Get(DraftJson(f).members, "notes") == Some(JString(f.notes))
    ensures Get(DraftJson(f).members, "severity") == Some(JString(f.severity))
    ensures Get(DraftJson(f).members, "tags") == Some(JArray(StringsJson(f.tags)))
    ensures Get(DraftJson(f).members, "units") == Some(JArray(StringsJson(f.units)))
    ensures Get(DraftJson(f).members, "timeline") == Some(JArray(EntriesJson(f.timeline)))
    ensures Get(DraftJson(f).members, "photos") == Some(JArray(StringsJson(f.photos)))
  {
    DraftMember(f, 0);
    DraftMember(f, 1);
    DraftMember(f, 2);
    DraftMember(f, 3);
    DraftMember(f, 4);
    DraftMember(f, 5);
    DraftMember(f, 6);
    DraftMember(f, 7);
    DraftMember(f, 8);
    DraftMember(f, 9);
  }

  /** Length and first letter, which already tell the draft's keys apart. */
  function KeyShape(key: string): (int, char) {
    (|key|, if key == [] then ' ' else key[0])
  }

  /** The draft object's keys are pairwise distinct, so each lookup finds its own member. */
  lemma DraftMember(f: FormFields, i: int)
    requires 0 <= i < 10
    ensures Get(DraftJson(f).members, DraftJson(f).members[i].0) == Some(DraftJson(f).members[i].1)
  {
    var m := DraftJson(f).members;
    var key := m[i].0;
    forall k | 0 <= k < |m| && k != i ensures m[k].0 != key {
      assert KeyShape(m[k].0) != KeyShape(key);
    }
    GetUnique(m, key, i);
  }

  /** Reading back one of the six text members of the draft object. */
  lemma DraftText(f: FormFields, i: int)
    requires 0 <= i < 6
    ensures DraftJson(f).members[i].1.JString?
    ensures TextOf(Some(DraftJson(f)), DraftJson(f).members[i].0) == DraftJson(f).members[i].1.s
  {
    DraftMember(f, i);
  }

  /** Reading back one of the four list members of the draft object. */
  lemma DraftItems(f: FormFields, i: int)
    requires 6 <= i < 10
    ensures DraftJson(f).members[i].1.JArray?
    ensures ItemsOf(Some(DraftJson(f)), DraftJson(f).members[i].0) == DraftJson(f).members[i].1.items
  {
    DraftMember(f, i);
  }

  /** Recovering a draft restores exactly the ten fields that were autosaved. */
  lemma DraftRoundTrip(f: FormFields)
    ensures InitialFields(Some(DraftJson(f))) == f
  {
    DraftText(f, 0);
    DraftText(f, 1);
    DraftText(f, 2);
    DraftText(f, 3);
    DraftText(f, 4);
    DraftText(f, 5);
    DraftItems(f, 6);
    DraftItems(f, 7);
    DraftItems(f, 8);
    DraftItems(f, 9);
    StringsRoundTrip(f.tags);
    StringsRoundTrip(f.units);
    StringsRoundTrip(f.photos);
    EntriesRoundTrip(f.timeline);
  }

  /** A timeline row object has two distinct, non-numeric keys and string values. */
  lemma EntryCanonical(e: TimelineEntry)
    ensures Canonical(EntryJson(e))
  {
    var m := EntryJson(e).members;
    assert m[0].0[0] == 't' && m[1].0[0] == 'e';
  }

  /** No two members of the draft object share a key. */
  lemma DraftKeysDistinct(f: FormFields)
    ensures forall i, k :: 0 <= i < k < |DraftJson(f).members| ==>
              DraftJson(f).members[i].0 != DraftJson(f).members[k].0
  {
    var m := DraftJson(f).members;
    forall i, k | 0 <= i < k < |m| ensures m[i].0 != m[k].0 {
      assert KeyShape(m[i].0) != KeyShape(m[k].0);
    }
  }

  /** The draft object is one `JSON.stringify` and `JSON.parse` give back unchanged. */
  lemma DraftCanonical(f: FormFields)
    ensures Canonical(DraftJson(f))
  {
    var m := DraftJson(f).members;
    DraftKeysDistinct(f);
    forall i | 0 <= i < |m| ensures !IsIntegerKey(m[i].0) {
      assert !('0' <= m[i].0[0] <= '9');
    }
    var t := EntriesJson(f.timeline);
    forall i | 0 <= i < |t| ensures Canonical(t[i]) {
      EntryCanonical(f.timeline[i]);
    }
  }

  // ------------------------------------------------------------------
  // loadInitialData, run once when the module loads
  // ------------------------------------------------------------------

  /** What `loadInitialData` hands to the form: the parsed value or `null`; or the exception `JSON.parse` throws. */
  datatype LoadResult = Loaded(initial: Option<Json>) | ParseFailed

  /** The result `loadInitialData` gives for a stored duplicate and draft. */
  function LoadOutcome(duplicate: Option<string>, draft: Option<string>, parse: string -> Option<Json>): LoadResult {
    if Truthy(duplicate) then
      (match parse(duplicate.value) case Some(j) => Loaded(Some(j)) case None => ParseFailed)
    else if Truthy(draft) then
      (match parse(draft.value) case Some(j) => Loaded(Some(j)) case None => ParseFailed)
    else Loaded(None)
  }

  /**
   * A duplicate takes priority over a draft and is consumed when it parses; a
   * draft is returned and kept; with neither the form starts empty.
   */
  lemma LoadOutcomePriority(duplicate: Option<string>, draft: Option<string>, parse: string -> Option<Json>)
    ensures Truthy(duplicate) && parse(duplicate.value).Some? ==>
              LoadOutcome(duplicate, draft, parse) == Loaded(parse(duplicate.value))
    ensures !Truthy(duplicate) && Truthy(draft) && parse(draft.value).Some? ==>
              LoadOutcome(duplicate, draft, parse) == Loaded(parse(draft.value))
    ensures !Truthy(duplicate) && !Truthy(draft) ==> LoadOutcome(duplicate, draft, parse) == Loaded(None)
  {
  }

  /** `loadInitialData`: reads both keys, and removes the duplicate key once its value has parsed. */
  method LoadInitialData(store: LocalStorage, parse: string -> Option<Json>) returns (r: LoadResult)
    modifies store
    ensures r == LoadOutcome(old(store.GetItem(DuplicateKey)), old(store.GetItem(DraftKey)), parse)
    ensures store.items == if Truthy(old(store.GetItem(DuplicateKey))) && r.Loaded?
                           then old(store.items) - {DuplicateKey}
                           else old(store.items)
  {
    var duplicate := store.GetItem(DuplicateKey);
    var draft := store.GetItem(DraftKey);
    if Truthy(duplicate) {
      var data := parse(duplicate.value);
      if data.None? {
        return ParseFailed;
      }
      store.RemoveItem(DuplicateKey);
      return Loaded(data);
    }
    if Truthy(draft) {
      var data := parse(draft.value);
      if data.None? {
        return ParseFailed;
      }
      return Loaded(data);
    }
    return Loaded(None);
  }

  // ------------------------------------------------------------------
  // The saved record
  // ------------------------------------------------------------------

  /** The record `handleSave` emits; `id` and `timestamp` come from `crypto.randomUUID()` and the clock. */
  function NewRecord(id: string, timestamp: int, f: FormFields): (r: FireIncidentData)
    ensures r.id == id && r.timestamp == timestamp
    ensures r.severity.None? <==> f.severity == ""
    ensures r.tags == Some(f.tags) && r.units == Some(f.units)
    ensures r.timeline == Some(f.timeline) && r.photos == Some(f.photos)
  {
    FireIncidentData(id, timestamp, f.fireType, f.arrivalConditions, f.hazards, f.actionsTaken,
                     f.notes, SavedSeverity(f.severity), Some(f.tags), Some(f.units),
                     Some(f.timeline), Some(f.photos))
  }

  // ------------------------------------------------------------------
  // The form
  // ------------------------------------------------------------------

  class FireIncidentForm {
    var fireType: string
    var arrivalConditions: string
    var hazards: string
    var actionsTaken: string
    var notes: string
    var severity: string
    var tagInput: string
    var tags: seq<string>
    var units: seq<string>
    var customUnit: string
    var timeline: seq<TimelineEntry>
    var timelineEvent: string
    var photos: seq<string>
    var photoError: string
    const store: LocalStorage
    const stringify: Json -> string

    /** The ten autosaved fields. */
    function Fields(): FormFields
      reads this
    {
      FormFields(fireType, arrivalConditions, hazards, actionsTaken, notes, severity,
                 tags, units, timeline, photos)
    }

    /** The autosave invariant: the draft key holds the current ten fields. */
    ghost predicate Saved()
      reads this, store
    {
      DraftKey in store.items && store.items[DraftKey] == stringify(DraftJson(Fields()))
    }

    /** Mounting the form: state from the module-level `initial`, then the autosave effect's first run. */
    constructor (store: LocalStorage, initial: Option<Json>, stringify: Json -> string)
      modifies store
      ensures this.store == store && this.stringify == stringify
      ensures Fields() == InitialFields(initial)
      ensures tagInput == "" && customUnit == "" && timelineEvent == "" && photoError == ""
      ensures store.items == old(store.items)[DraftKey := stringify(DraftJson(Fields()))]
      ensures Saved()
    {
      var f := InitialFields(initial);
      fireType, arrivalConditions, hazards, actionsTaken, notes := f.fireType, f.arrivalConditions, f.hazards, f.actionsTaken, f.notes;
      severity, tags, units, timeline, photos := f.severity, f.tags, f.units, f.timeline, f.photos;
      tagInput, customUnit, timelineEvent, photoError := "", "", "", "";
      this.store := store;
      this.stringify := stringify;
      new;
      store.SetItem(DraftKey, stringify(DraftJson(Fields())));
    }

    /** The autosave effect: `localStorage.setItem("fire_in_progress", JSON.stringify(draft))`. */
    method Autosave()
      modifies store
      ensures store.items == old(store.items)[DraftKey := stringify(DraftJson(Fields()))]
      ensures Saved()
    {
      store.SetItem(DraftKey, stringify(DraftJson(Fields())));
    }

    /** Typing into one of the five free-text inputs. */
    method SetText(field: TextField, value: string)
      modifies this, store
      ensures Fields() == WithText(old(Fields()), field, value)
      ensures tagInput == old(tagInput) && customUnit == old(customUnit)
      ensures timelineEvent == old(timelineEvent) && photoError == old(photoError)
      ensures store.items == if Fields() != old(Fields())
                             then old(store.items)[DraftKey := stringify(DraftJson(Fields()))]
                             else old(store.items)
      ensures old(Saved()) || Fields() != old(Fields()) ==> Saved()
    {
      var before := Fields();
      match field {
        case FireType => fireType := value;
        case ArrivalConditions => arrivalConditions := value;
        case Hazards => hazards := value;
        case ActionsTaken => actionsTaken := value;
        case Notes => notes := value;
      }
      if Fields() != before {
        Autosave();
      }
    }

    /**
     * Choosing a severity from the select ("" is the "Select severity..." option).
     * Setting a state to the value it already has re-runs no effect.
     */
    method SetSeverity(value: string)
      modifies this, store
      ensures Fields() == old(Fields()).(severity := value)
      ensures tagInput == old(tagInput) && customUnit == old(customUnit)
      ensures timelineEvent == old(timelineEvent) && photoError == old(photoError)
      ensures store.items == if value != old(severity)
                             then old(store.items)[DraftKey := stringify(DraftJson(Fields()))]
                             else old(store.items)
      ensures old(Saved()) || value != old(severity) ==> Saved()
    {
      if value != severity {
        severity := value;
        Autosave();
      }
    }

    /** Typing into the tag, custom-unit or timeline-event box: not part of the draft. */
    method SetTagInput(value: string)
      modifies this
      ensures tagInput == value && Fields() == old(Fields())
      ensures customUnit == old(customUnit) && timelineEvent == old(timelineEvent) && photoError == old(photoError)
      ensures store.items == old(store.items)
      ensures old(Saved()) ==> Saved()
    {
      tagInput := value;
    }

    method SetCustomUnit(value: string)
      modifies this
      ensures customUnit == value && Fields() == old(Fields())
      ensures tagInput == old(tagInput) && timelineEvent == old(timelineEvent) && photoError == old(photoError)
      ensures store.items == old(store.items)
      ensures old(Saved()) ==> Saved()
    {
      customUnit := value;
    }

    method SetTimelineEvent(value: string)
      modifies this
      ensures timelineEvent == value && Fields() == old(Fields())
      ensures tagInput == old(tagInput) && customUnit == old(customUnit) && photoError == old(photoError)
      ensures store.items == old(store.items)
      ensures old(Saved()) ==> Saved()
    {
      timelineEvent := value;
    }

    /** `addTag`: append the trimmed input when it is non-blank and new, and clear the box. */
    method AddTag()
      modifies this, store
      ensures Fields() == old(Fields()).(tags := ListEdit.AddTrimmed(old(tags), old(tagInput)))
      ensures tagInput == ListEdit.InputAfterAdd(old(tags), old(tagInput))
      ensures customUnit == old(customUnit) && timelineEvent == old(timelineEvent) && photoError == old(photoError)
      ensures store.items == if ListEdit.Accepts(old(tags), old(tagInput))
                             then old(store.items)[DraftKey := stringify(DraftJson(Fields()))]
                             else old(store.items)
      ensures old(Saved()) || ListEdit.Accepts(old(tags), old(tagInput)) ==> Saved()
    {
      if ListEdit.Accepts(tags, tagInput) {
        tags, tagInput := tags + [Text.Trim(tagInput)], "";
        Autosave();
      }
    }

    /** `removeTag`: drop every copy of the tag. */
    method RemoveTag(tag: string)
      modifies this, store
      ensures Fields() == old(Fields()).(tags := ListEdit.RemoveAll(old(tags), tag))
      ensures tagInput == old(tagInput) && customUnit == old(customUnit)
      ensures timelineEvent == old(timelineEvent) && photoError == old(photoError)
      ensures store.items == old(store.items)[DraftKey := stringify(DraftJson(Fields()))]
      ensures Saved()
    {
      tags := ListEdit.RemoveAll(tags, tag);
      Autosave();
    }

    /** `toggleUnit`: a preset checkbox or a unit chip. */
    method ToggleUnit(unit: string)
      modifies this, store
      ensures Fields() == old(Fields()).(units := ListEdit.Toggle(old(units), unit))
      ensures tagInput == old(tagInput) && customUnit == old(customUnit)
      ensures timelineEvent == old(timelineEvent) && photoError == old(photoError)
      ensures store.items == old(store.items)[DraftKey := stringify(DraftJson(Fields()))]
      ensures Saved()
    {
      if unit in units {
        units := ListEdit.RemoveAll(units, unit);
      } else {
        units := units + [unit];
      }
      Autosave();
    }

    /** `addCustomUnit`: the same rule as `addTag`, on the unit list. */
    method AddCustomUnit()
      modifies this, store
      ensures Fields() == old(Fields()).(units := ListEdit.AddTrimmed(old(units), old(customUnit)))
      ensures customUnit == ListEdit.InputAfterAdd(old(units), old(customUnit))
      ensures tagInput == old(tagInput) && timelineEvent == old(timelineEvent) && photoError == old(photoError)
      ensures store.items == if ListEdit.Accepts(old(units), old(customUnit))
                             then old(store.items)[DraftKey := stringify(DraftJson(Fields()))]
                             else old(store.items)
      ensures old(Saved()) || ListEdit.Accepts(old(units), old(customUnit)) ==> Saved()
    {
      if ListEdit.Accepts(units, customUnit) {
        units, customUnit := units + [Text.Trim(customUnit)], "";
        Autosave();
      }
    }

    /** `addTimelineEvent`; `time` is the `toLocaleTimeString` reading of the clock. */
    method AddTimelineEvent(time: string)
      modifies this, store
      ensures Fields() == old(Fields()).(timeline := FireData.AddTimelineEvent(old(timeline), old(timelineEvent), time))
      ensures timelineEvent == EventInputAfterAdd(old(timelineEvent))
      ensures tagInput == old(tagInput) && customUnit == old(customUnit) && photoError == old(photoError)
      ensures store.items == if Text.Trim(old(timelineEvent)) != ""
                             then old(store.items)[DraftKey := stringify(DraftJson(Fields()))]
                             else old(store.items)
      ensures old(Saved()) || Text.Trim(old(timelineEvent)) != "" ==> Saved()
    {
      if Text.Trim(timelineEvent) != "" {
        timeline := timeline + [TimelineEntry(time, Text.Trim(timelineEvent))];
        timelineEvent := "";
        Autosave();
      }
    }

    /** `removeTimelineEvent(index)`. */
    method RemoveTimelineEvent(index: int)
      modifies this, store
      ensures Fields() == old(Fields()).(timeline := ListEdit.RemoveAt(old(timeline), index))
      ensures tagInput == old(tagInput) && customUnit == old(customUnit)
      ensures timelineEvent == old(timelineEvent) && photoError == old(photoError)
      ensures store.items == old(store.items)[DraftKey := stringify(DraftJson(Fields()))]
      ensures Saved()
    {
      timeline := ListEdit.RemoveAt(timeline, index);
      Autosave();
    }

    /** `handlePhotoUpload`, with the outcome of reading and compressing the file given. */
    method HandlePhotoUpload(upload: PhotoUpload)
      modifies this, store
      ensures (photos, photoError) == UploadPhoto(old(photos), old(photoError), upload)
      ensures Fields() == old(Fields()).(photos := photos)
      ensures tagInput == old(tagInput) && customUnit == old(customUnit) && timelineEvent == old(timelineEvent)
      ensures store.items == if upload.Compressed? && |old(photos)| < MaxPhotos
                             then old(store.items)[DraftKey := stringify(DraftJson(Fields()))]
                             else old(store.items)
      ensures old(Saved()) || (upload.Compressed? && |old(photos)| < MaxPhotos) ==> Saved()
    {
      if upload.NoFile? {
        return;
      }
      if |photos| >= MaxPhotos {
        photoError := MaxPhotosMessage;
        return;
      }
      match upload
      case ProcessingFailed =>
        photoError := ProcessingFailedMessage;
      case Compressed(url) =>
        photos, photoError := photos + [url], "";
        Autosave();
    }

    /** `removePhoto(index)`. */
    method RemovePhoto(index: int)
      modifies this, store
      ensures Fields() == old(Fields()).(photos := ListEdit.RemoveAt(old(photos), index))
      ensures tagInput == old(tagInput) && customUnit == old(customUnit)
      ensures timelineEvent == old(timelineEvent) && photoError == old(photoError)
      ensures store.items == old(store.items)[DraftKey := stringify(DraftJson(Fields()))]
      ensures Saved()
    {
      photos := ListEdit.RemoveAt(photos, index);
      Autosave();
    }

    /** `handleSave`: discard the draft and emit the new record. */
    method HandleSave(id: string, timestamp: int) returns (record: FireIncidentData)
      modifies store
      ensures record == NewRecord(id, timestamp, Fields())
      ensures store.items == old(store.items) - {DraftKey}
    {
      record := NewRecord(id, timestamp, Fields());
      store.RemoveItem(DraftKey);
    }
  }

  /**
   * The page module once evaluated. `initial` is computed by `loadInitialData`
   * when the module is first imported and is shared by every later mount of
   * the form in the same page session.
   */
  class FireIncidentModule {
    const initial: Option<Json>
    const store: LocalStorage
    const stringify: Json -> string

    constructor (store: LocalStorage, initial: Option<Json>, stringify: Json -> string)
      ensures this.store == store && this.initial == initial && this.stringify == stringify
    {
      this.store := store;
      this.initial := initial;
      this.stringify := stringify;
    }

    /** Mounting `<FireIncident>`: the form starts from the module-level `initial`, whatever the store holds now. */
    method Mount() returns (form: FireIncidentForm)
      modifies store
      ensures fresh(form) && form.store == store && form.stringify == stringify
      ensures form.Fields() == InitialFields(initial)
      ensures form.tagInput == "" && form.customUnit == "" && form.timelineEvent == "" && form.photoError == ""
      ensures store.items == old(store.items)[DraftKey := stringify(DraftJson(form.Fields()))]
      ensures form.Saved()
    {
      form := new FireIncidentForm(store, initial, stringify);
    }
  }

  /** Evaluating the module: `loadInitialData` runs once, and a `JSON.parse` that throws fails the evaluation. */
  method LoadModule(store: LocalStorage, parse: string -> Option<Json>, stringify: Json -> string)
      returns (m: Option<FireIncidentModule>)
    modifies store
    ensures var r := LoadOutcome(old(store.GetItem(DuplicateKey)), old(store.GetItem(DraftKey)), parse);
            (m.None? <==> r.ParseFailed?) &&
            (m.Some? ==> fresh(m.value) && m.value.initial == r.initial &&
                         m.value.store == store && m.value.stringify == stringify)
    ensures store.items == if Truthy(old(store.GetItem(DuplicateKey))) && m.Some?
                           then old(store.items) - {DuplicateKey}
                           else old(store.items)
  {
    var r := LoadInitialData(store, parse);
    if r.ParseFailed? {
      return None;
    }
    var loaded := new FireIncidentModule(store, r.initial, stringify);
    return Some(loaded);
  }

  /**
   * The module-level `initial` outlives a save: mounting the form again in
   * the same page session starts from the fields loaded when the module was
   * evaluated, and the first autosave writes them back under the draft key
   * the save had just removed. A duplicate left in the store meanwhile is
   * neither read nor consumed.
   */
  method SaveThenRemount(m: FireIncidentModule, form: FireIncidentForm, id: string, timestamp: int)
      returns (record: FireIncidentData, again: FireIncidentForm)
    requires form.store == m.store
    modifies m.store
    ensures record == NewRecord(id, timestamp, form.Fields())
    ensures again.Fields() == InitialFields(m.initial)
    ensures DraftKey in m.store.items && m.store.items[DraftKey] == m.stringify(DraftJson(InitialFields(m.initial)))
    ensures m.store.items == old(m.store.items)[DraftKey := m.stringify(DraftJson(InitialFields(m.initial)))]
    ensures DuplicateKey in old(m.store.items) ==> DuplicateKey in m.store.items
  {
    record := form.HandleSave(id, timestamp);
    again := m.Mount();
    assert (old(m.store.items) - {DraftKey})[DraftKey := m.stringify(DraftJson(again.Fields()))]
        == old(m.store.items)[DraftKey := m.stringify(DraftJson(again.Fields()))];
  }

  /**
   * Draft recovery end to end: a form autosaves, the page is loaded again
   * with no duplicate waiting, and the form mounted from the newly evaluated
   * module starts from the same ten fields.
   */
  method ReloadRestoresDraft(form: FireIncidentForm, parse: string -> Option<Json>) returns (recovered: FireIncidentForm)
    requires form.Saved() && DuplicateKey !in form.store.items
    requires RoundTrips(Codec(parse, form.stringify))
    modifies form.store
    ensures recovered.Fields() == form.Fields()
  {
    var text := form.stringify(DraftJson(form.Fields()));
    assert parse(text) == Some(DraftJson(form.Fields())) by {
      DraftCanonical(form.Fields());
    }
    assert text != "";
    var m := LoadModule(form.store, parse, form.stringify);
    DraftRoundTrip(form.Fields());
    recovered := m.value.Mount();
  }
}
