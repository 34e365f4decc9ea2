/**
 * The edit-Firefighter-incident form (`pages/FireIncidentEdit.tsx`): state
 * initialised from a saved record, the same editors as the new-incident form
 * (without autosave), and the save handler that merges the edits into the record.
 */
module FireIncidentEdit {
  import opened Wrappers
  import opened Storage
  import opened FireData
  import FireIncident
  import ListEdit
  import Text
  import Seqs

  /** The form's initial state: `incident.x`, with `|| ""` / `|| []` for the optional fields. */
  function EditFields(incident: FireIncidentData): (r: FormFields)
    ensures r.severity == LoadedSeverity(incident.severity)
    ensures incident.tags.None? ==> r.tags == []
    ensures incident.units.None? ==> r.units == []
    ensures incident.timeline.None? ==> r.timeline == []
    ensures incident.photos.None? ==> r.photos == []
  {
    FormFields(incident.fireType, incident.arrivalConditions, incident.hazards, incident.actionsTaken,
               incident.notes, LoadedSeverity(incident.severity), incident.tags.GetOr([]),
               incident.units.GetOr([]), incident.timeline.GetOr([]), incident.photos.GetOr([]))
  }

  /** `{...incident, fireType, …, severity: severity || undefined, tags, units, timeline, photos}`. */
  function MergeEdit(incident: FireIncidentData, f: FormFields): (r: FireIncidentData)
    ensures r.id == incident.id && r.timestamp == incident.timestamp
    ensures r.severity.None? <==> f.severity == ""
  {
    incident.(fireType := f.fireType, arrivalConditions := f.arrivalConditions, hazards := f.hazards,
              actionsTaken := f.actionsTaken, notes := f.notes, severity := SavedSeverity(f.severity),
              tags := Some(f.tags), units := Some(f.units), timeline := Some(f.timeline),
              photos := Some(f.photos))
  }

  /** Reopening a saved edit shows exactly the fields that were saved. */
  lemma EditRoundTrip(incident: FireIncidentData, f: FormFields)
    ensures EditFields(MergeEdit(incident, f)) == f
  {
  }

  /** The saved edit is determined by the original's identity and the ten fields alone. */
  lemma MergeDependsOnlyOnIdentity(a: FireIncidentData, b: FireIncidentData, f: FormFields)
    requires a.id == b.id && a.timestamp == b.timestamp
    ensures MergeEdit(a, f) == MergeEdit(b, f)
  {
  }

  /**
   * Saving without editing keeps every field, except that missing lists are
   * written as empty ones and an empty severity as absent.
   */
  lemma UneditedSave(incident: FireIncidentData)
    ensures MergeEdit(incident, EditFields(incident)) ==
            incident.(severity := SavedSeverity(LoadedSeverity(incident.severity)),
                      tags := Some(incident.tags.GetOr([])), units := Some(incident.units.GetOr([])),
                      timeline := Some(incident.timeline.GetOr([])), photos := Some(incident.photos.GetOr([])))
    ensures incident.severity != Some("") && incident.tags.Some? && incident.units.Some? &&
            incident.timeline.Some? && incident.photos.Some? ==>
              MergeEdit(incident, EditFields(incident)) == incident
  {
  }

  /** A record saved by the new-incident form opens in the edit form with the fields it was saved with. */
  lemma NewRecordOpensUnchanged(id: string, timestamp: int, f: FormFields)
    ensures EditFields(FireIncident.NewRecord(id, timestamp, f)) == f
  {
  }

  class FireIncidentEditForm {
    const incident: FireIncidentData
    const index: int
    var fireType: string
    var arrivalConditions: string
    var hazards: string
    var actionsTaken: string
    var notes: string
    var severity: string
    var tagInput: string
    var tags: seq<string>
    var units: seq<string>
    var customUnit: string
    var timeline: seq<TimelineEntry>
    var timelineEvent: string
    var photos: seq<string>
    var photoError: string
    const store: LocalStorage

    /** The ten edited fields. */
    function Fields(): FormFields
      reads this
    {
      FormFields(fireType, arrivalConditions, hazards, actionsTaken, notes, severity,
                 tags, units, timeline, photos)
    }

    /** Mounting the form for `incident`, the `index`-th saved record. */
    constructor (store: LocalStorage, incident: FireIncidentData, index: int)
      ensures this.store == store && this.incident == incident && this.index == index
      ensures Fields() == EditFields(incident)
      ensures tagInput == "" && customUnit == "" && timelineEvent == "" && photoError == ""
    {
      this.incident := incident;
      this.index := index;
      this.store := store;
      var f := EditFields(incident);
      fireType, arrivalConditions, hazards, actionsTaken, notes := f.fireType, f.arrivalConditions, f.hazards, f.actionsTaken, f.notes;
      severity, tags, units, timeline, photos := f.severity, f.tags, f.units, f.timeline, f.photos;
      tagInput, customUnit, timelineEvent, photoError := "", "", "", "";
    }

    method SetText(field: TextField, value: string)
      modifies this
      ensures Fields() == WithText(old(Fields()), field, value)
      ensures tagInput == old(tagInput) && customUnit == old(customUnit)
      ensures timelineEvent == old(timelineEvent) && photoError == old(photoError)
    {
      match field {
        case FireType => fireType := value;
        case ArrivalConditions => arrivalConditions := value;
        case Hazards => hazards := value;
        case ActionsTaken => actionsTaken := value;
        case Notes => notes := value;
      }
    }

    method SetSeverity(value: string)
      modifies this
      ensures Fields() == old(Fields()).(severity := value)
      ensures tagInput == old(tagInput) && customUnit == old(customUnit)
      ensures timelineEvent == old(timelineEvent) && photoError == old(photoError)
    {
      severity := value;
    }

    method SetTagInput(value: string)
      modifies this
      ensures tagInput == value && Fields() == old(Fields())
      ensures customUnit == old(customUnit) && timelineEvent == old(timelineEvent) && photoError == old(photoError)
    {
      tagInput := value;
    }

    method SetCustomUnit(value: string)
      modifies this
      ensures customUnit == value && Fields() == old(Fields())
      ensures tagInput == old(tagInput) && timelineEvent == old(timelineEvent) && photoError == old(photoError)
    {
      customUnit := value;
    }

    method SetTimelineEvent(value: string)
      modifies this
      ensures timelineEvent == value && Fields() == old(Fields())
      ensures tagInput == old(tagInput) && customUnit == old(customUnit) && photoError == old(photoError)
    {
      timelineEvent := value;
    }

    /** `addTag`, as in the new-incident form. */
    method AddTag()
      modifies this
      ensures Fields() == old(Fields()).(tags := ListEdit.AddTrimmed(old(tags), old(tagInput)))
      ensures tagInput == ListEdit.InputAfterAdd(old(tags), old(tagInput))
      ensures customUnit == old(customUnit) && timelineEvent == old(timelineEvent) && photoError == old(photoError)
      ensures Seqs.NoDup(old(tags)) ==> Seqs.NoDup(tags)
    {
      ListEdit.AddTrimmedSpec(tags, tagInput);
      if ListEdit.Accepts(tags, tagInput) {
        tags, tagInput := tags + [Text.Trim(tagInput)], "";
      }
    }

    method RemoveTag(tag: string)
      modifies this
      ensures Fields() == old(Fields()).(tags := ListEdit.RemoveAll(old(tags), tag))
      ensures tagInput == old(tagInput) && customUnit == old(customUnit)
      ensures timelineEvent == old(timelineEvent) && photoError == old(photoError)
      ensures Seqs.NoDup(old(tags)) ==> Seqs.NoDup(tags)
    {
      ListEdit.RemoveAllSpec(tags, tag);
      if Seqs.NoDup(tags) {
        ListEdit.SubsequenceNoDup(ListEdit.RemoveAll(tags, tag), tags);
      }
      tags := ListEdit.RemoveAll(tags, tag);
    }

    method ToggleUnit(unit: string)
      modifies this
      ensures Fields() == old(Fields()).(units := ListEdit.Toggle(old(units), unit))
      ensures tagInput == old(tagInput) && customUnit == old(customUnit)
      ensures timelineEvent == old(timelineEvent) && photoError == old(photoError)
      ensures Seqs.NoDup(old(units)) ==> Seqs.NoDup(units)
    {
      ListEdit.ToggleSpec(units, unit);
      if unit in units {
        units := ListEdit.RemoveAll(units, unit);
      } else {
        units := units + [unit];
      }
    }

    method AddCustomUnit()
      modifies this
      ensures Fields() == old(Fields()).(units := ListEdit.AddTrimmed(old(units), old(customUnit)))
      ensures customUnit == ListEdit.InputAfterAdd(old(units), old(customUnit))
      ensures tagInput == old(tagInput) && timelineEvent == old(timelineEvent) && photoError == old(photoError)
      ensures Seqs.NoDup(old(units)) ==> Seqs.NoDup(units)
    {
      ListEdit.AddTrimmedSpec(units, customUnit);
      if ListEdit.Accepts(units, customUnit) {
        units, customUnit := units + [Text.Trim(customUnit)], "";
      }
    }

    method AddTimelineEvent(time: string)
      modifies this
      ensures Fields() == old(Fields()).(timeline := FireData.AddTimelineEvent(old(timeline), old(timelineEvent), time))
      ensures timelineEvent == EventInputAfterAdd(old(timelineEvent))
      ensures tagInput == old(tagInput) && customUnit == old(customUnit) && photoError == old(photoError)
    {
      if Text.Trim(timelineEvent) != "" {
        timeline := timeline + [TimelineEntry(time, Text.Trim(timelineEvent))];
        timelineEvent := "";
      }
    }

    method RemoveTimelineEvent(i: int)
      modifies this
      ensures Fields() == old(Fields()).(timeline := ListEdit.RemoveAt(old(timeline), i))
      ensures tagInput == old(tagInput) && customUnit == old(customUnit)
      ensures timelineEvent == old(timelineEvent) && photoError == old(photoError)
    {
      timeline := ListEdit.RemoveAt(timeline, i);
    }

    method HandlePhotoUpload(upload: PhotoUpload)
      modifies this
      ensures (photos, photoError) == UploadPhoto(old(photos), old(photoError), upload)
      ensures Fields() == old(Fields()).(photos := photos)
      ensures tagInput == old(tagInput) && customUnit == old(customUnit) && timelineEvent == old(timelineEvent)
      ensures |old(photos)| <= MaxPhotos ==> |photos| <= MaxPhotos
    {
      if upload.NoFile? {
        return;
      }
      if |photos| >= MaxPhotos {
        photoError := MaxPhotosMessage;
        return;
      }
      match upload
      case ProcessingFailed =>
        photoError := ProcessingFailedMessage;
      case Compressed(url) =>
        photos, photoError := photos + [url], "";
    }

    method RemovePhoto(i: int)
      modifies this
      ensures Fields() == old(Fields()).(photos := ListEdit.RemoveAt(old(photos), i))
      ensures tagInput == old(tagInput) && customUnit == old(customUnit)
      ensures timelineEvent == old(timelineEvent) && photoError == old(photoError)
    {
      photos := ListEdit.RemoveAt(photos, i);
    }

    /** `handleSave`: discard the new-incident draft, then hand the merged record and the unchanged index to the caller. */
    method HandleSave() returns (updated: FireIncidentData, at: int)
      modifies store
      ensures updated == MergeEdit(incident, Fields())
      ensures at == index
      ensures store.items == old(store.items) - {FireIncident.DraftKey}
    {
      updated := MergeEdit(incident, Fields());
      store.RemoveItem(FireIncident.DraftKey);
      at := index;
    }
  }
}
