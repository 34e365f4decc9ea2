/**
 * The Firefighter incident record (`types/FireIncidentData.ts`) and the
 * state both Firefighter forms keep, with the photo and timeline editors
 * they share.
 */
module FireData {
  import opened Wrappers
  import Text
  import ListEdit

  /** One timeline row: a locale clock time and a description. */
  datatype TimelineEntry = TimelineEntry(time: string, event: string)

  /**
   * A saved incident. `timestamp` is the instant the record was created, in
   * milliseconds, as `new Date(timestamp).getTime()` reads it back.
   */
  datatype FireIncidentData = FireIncidentData(
    id: string,
    timestamp: int,
    fireType: string,
    arrivalConditions: string,
    hazards: string,
    actionsTaken: string,
    notes: string,
    severity: Option<string>,
    tags: Option<seq<string>>,
    units: Option<seq<string>>,
    timeline: Option<seq<TimelineEntry>>,
    photos: Option<seq<string>>)

  /** The ten fields a Firefighter form edits, autosaves and saves. Severity `""` means "not chosen". */
  datatype FormFields = FormFields(
    fireType: string,
    arrivalConditions: string,
    hazards: string,
    actionsTaken: string,
    notes: string,
    severity: string,
    tags: seq<string>,
    units: seq<string>,
    timeline: seq<TimelineEntry>,
    photos: seq<string>)

  /** The five free-text fields, each bound to one input of the form. */
  datatype TextField = FireType | ArrivalConditions | Hazards | ActionsTaken | Notes

  /** `severity || undefined`: the empty choice is saved as an absent field. */
  function SavedSeverity(severity: string): (r: Option<string>)
    ensures r.None? <==> severity == ""
    ensures r.Some? ==> r.value == severity
  {
    if severity == "" then None else Some(severity)
  }

  /** `incident.severity || ""`: an absent severity loads as the empty choice. */
  function LoadedSeverity(severity: Option<string>): (r: string)
    ensures severity.None? ==> r == ""
    ensures severity.Some? ==> r == severity.value
  {
    severity.GetOr("")
  }

  /** Saving then loading a severity gives it back. */
  lemma SeverityRoundTrip(severity: string)
    ensures LoadedSeverity(SavedSeverity(severity)) == severity
  {
  }

  /** Files per incident allowed by the photo input. */
  const MaxPhotos := 3
  const MaxPhotosMessage := "Maximum of 3 photos allowed."
  const ProcessingFailedMessage := "Failed to process image."

  /** What the file input delivered: nothing, an image the compressor rejected, or its compressed data URL. */
  datatype PhotoUpload = NoFile | ProcessingFailed | Compressed(dataUrl: string)

  /** `handlePhotoUpload`: the photo list and error message afterwards. */
  function UploadPhoto(photos: seq<string>, error: string, upload: PhotoUpload): (r: (seq<string>, string))
    ensures upload.NoFile? ==> r == (photos, error)
    ensures !upload.NoFile? && |photos| >= MaxPhotos ==> r == (photos, MaxPhotosMessage)
    ensures upload.ProcessingFailed? && |photos| < MaxPhotos ==> r == (photos, ProcessingFailedMessage)
    ensures upload.Compressed? && |photos| < MaxPhotos ==> r == (photos + [upload.dataUrl], "")
  {
    if upload.NoFile? then (photos, error)
    else if |photos| >= MaxPhotos then (photos, MaxPhotosMessage)
    else match upload
      case ProcessingFailed => (photos, ProcessingFailedMessage)
      case Compressed(url) => (photos + [url], "")
  }

  /** An upload never takes the photo list past three, nor grows one that already has three or more. */
  lemma UploadPhotoCap(photos: seq<string>, error: string, upload: PhotoUpload)
    ensures |photos| <= MaxPhotos ==> |UploadPhoto(photos, error, upload).0| <= MaxPhotos
    ensures |UploadPhoto(photos, error, upload).0| <= |photos| + 1
    ensures |photos| >= MaxPhotos ==> UploadPhoto(photos, error, upload).0 == photos
  {
  }

  /** `addTimelineEvent`: the timeline afterwards; `time` is the locale clock reading. */
  function AddTimelineEvent(timeline: seq<TimelineEntry>, input: string, time: string): (r: seq<TimelineEntry>)
    ensures Text.Trim(input) != "" ==> |r| == |timeline| + 1 && r[..|timeline|] == timeline
                                       && r[|timeline|] == TimelineEntry(time, Text.Trim(input))
    ensures Text.Trim(input) == "" ==> r == timeline
  {
    if Text.Trim(input) != "" then timeline + [TimelineEntry(time, Text.Trim(input))] else timeline
  }

  /** The event box after `addTimelineEvent`: cleared exactly when a row was added. */
  function EventInputAfterAdd(input: string): string {
    if Text.Trim(input) != "" then "" else input
  }

  /** The form fields with one free-text field replaced. */
  function WithText(f: FormFields, field: TextField, value: string): (r: FormFields)
    ensures r.severity == f.severity && r.tags == f.tags && r.units == f.units
    ensures r.timeline == f.timeline && r.photos == f.photos
    ensures field == FireType ==> r == f.(fireType := value)
    ensures field == ArrivalConditions ==> r == f.(arrivalConditions := value)
    ensures field == Hazards ==> r == f.(hazards := value)
    ensures field == ActionsTaken ==> r == f.(actionsTaken := value)
    ensures field == Notes ==> r == f.(notes := value)
  {
    match field
    case FireType => f.(fireType := value)
    case ArrivalConditions => f.(arrivalConditions := value)
    case Hazards => f.(hazards := value)
    case ActionsTaken => f.(actionsTaken := value)
    case Notes => f.(notes := value)
  }
}
