/**
 * The application controller (`App.tsx`): which screen is visible, the saved
 * notes and the saved EMT incidents, and the handlers that change them.
 */
module App {
  import opened Wrappers
  import opened Seqs
  import opened EmtIncident
  import EmtHistory

  /** A geolocation fix attached to a note. */
  datatype Location = Location(lat: real, lng: real)

  /** A quick note (`types/Note.ts`); `timestamp` is its ISO creation time. */
  datatype Note = Note(
    id: string,
    title: string,
    content: string,
    tags: seq<string>,
    timestamp: string,
    location: Option<Location>)

  /** `ViewState`: the visible screen; the note screen carries a note id, two EMT screens an incident index. */
  datatype ViewState =
    | HomeScreen
    | NewNoteScreen
    | NoteScreen(id: string)
    | EmtScreen
    | EmtIncidentScreen
    | EmtEditScreen(index: int)
    | EmtHistoryScreen
    | EmtViewScreen(index: int)
    | SettingsScreen

  /** `notes.find((n) => n.id === id)`: the first note with that id. */
  function FindNote(notes: seq<Note>, id: string): (r: Option<Note>)
    ensures r.None? <==> forall i :: 0 <= i < |notes| ==> notes[i].id != id
    ensures r.Some? ==> exists i :: 0 <= i < |notes| && notes[i] == r.value && r.value.id == id &&
                                   forall j :: 0 <= j < i ==> notes[j].id != id
  {
    if notes == [] then None
    else if notes[0].id == id then Some(notes[0])
    else
      var r := FindNote(notes[1..], id);
      assert forall i :: 0 < i < |notes| ==> notes[i] == notes[1..][i - 1];
      r
  }

  /** The filter callback of `handleDelete`. */
  function HasOtherId(id: string): Note -> bool {
    (n: Note) => n.id != id
  }

  /** `notes.filter((n) => n.id !== id)`. */
  function WithoutId(notes: seq<Note>, id: string): (r: seq<Note>)
    ensures forall i :: 0 <= i < |r| ==> r[i].id != id
    ensures forall i :: 0 <= i < |notes| && notes[i].id != id ==> notes[i] in r
    ensures IsSubsequence(r, notes)
  {
    FilterIsSubsequence(HasOtherId(id), notes);
    Filter(HasOtherId(id), notes)
  }

  /** Deleting removes only notes with that id: every other note keeps its count. */
  lemma WithoutIdCounts(notes: seq<Note>, id: string, n: Note)
    ensures multiset(WithoutId(notes, id))[n] == if n.id != id then multiset(notes)[n] else 0
  {
    FilterCount(HasOtherId(id), notes, n);
  }

  /** Saving a note and then deleting it leaves the notes as deleting alone would. */
  lemma DeleteAfterSave(notes: seq<Note>, note: Note)
    ensures WithoutId([note] + notes, note.id) == WithoutId(notes, note.id)
  {
    assert ([note] + notes)[1..] == notes;
  }

  /** A saved note is what `currentNote` finds under its own id. */
  lemma SavedNoteIsFound(notes: seq<Note>, note: Note)
    ensures FindNote([note] + notes, note.id) == Some(note)
  {
  }

  class AppState {
    var view: ViewState
    var notes: seq<Note>
    var incidents: seq<EmtIncidentData>

    /** Every incident index held by the view names a saved incident. */
    ghost predicate Valid()
      reads this
    {
      (view.EmtEditScreen? ==> 0 <= view.index < |incidents|) &&
      (view.EmtViewScreen? ==> 0 <= view.index < |incidents|)
    }

    /** Start-up, with the notes and incidents the storage hooks loaded: the home screen. */
    constructor (notes: seq<Note>, incidents: seq<EmtIncidentData>)
      ensures this.view == HomeScreen && this.notes == notes && this.incidents == incidents
      ensures Valid()
    {
      this.view := HomeScreen;
      this.notes := notes;
      this.incidents := incidents;
    }

    /** `currentNote`: on the note screen, the first note with its id; otherwise none. */
    function CurrentNote(): (r: Option<Note>)
      reads this
      ensures !view.NoteScreen? ==> r.None?
      ensures view.NoteScreen? ==> r == FindNote(notes, view.id)
    {
      if view.NoteScreen? then FindNote(notes, view.id) else None
    }

    /** The incident the detail screen shows, `incidents[view.index]`. */
    function ViewedIncident(): (r: Option<EmtIncidentData>)
      reads this
      ensures r.Some? <==> view.EmtViewScreen? && 0 <= view.index < |incidents|
      ensures r.Some? ==> r.value == incidents[view.index]
      ensures Valid() && view.EmtViewScreen? ==> r == Some(incidents[view.index])
    {
      if view.EmtViewScreen? && 0 <= view.index < |incidents| then Some(incidents[view.index]) else None
    }

    /** `setView`, for the handlers that only change screens. */
    method Navigate(next: ViewState)
      modifies this
      requires next.EmtEditScreen? || next.EmtViewScreen? ==> 0 <= next.index < |incidents|
      ensures view == next && notes == old(notes) && incidents == old(incidents)
      ensures Valid()
    {
      view := next;
    }

    /** `handleSave(note)`: the note goes first and its screen opens, showing it. */
    method HandleSave(note: Note)
      modifies this
      ensures notes == [note] + old(notes) && view == NoteScreen(note.id)
      ensures incidents == old(incidents)
      ensures CurrentNote() == Some(note)
      ensures Valid()
    {
      notes := [note] + notes;
      view := NoteScreen(note.id);
    }

    /** `handleDelete(id)`: every note with that id goes, the others stay in order, and home opens. */
    method HandleDelete(id: string)
      modifies this
      ensures notes == WithoutId(old(notes), id) && view == HomeScreen
      ensures incidents == old(incidents)
      ensures Valid()
    {
      notes := Filter(HasOtherId(id), notes);
      view := HomeScreen;
    }

    /**
     * `handleSaveIncident(data, editIndex)`: with an index, a copy of the list
     * with that slot replaced; without one, `data` goes first. The EMT dashboard
     * opens either way.
     */
    method HandleSaveIncident(data: EmtIncidentData, editIndex: Option<int>)
      modifies this
      requires editIndex.Some? ==> 0 <= editIndex.value < |incidents|
      ensures editIndex.Some? ==> incidents == old(incidents)[editIndex.value := data]
      ensures editIndex.None? ==> incidents == [data] + old(incidents)
      ensures view == EmtScreen && notes == old(notes)
      ensures Valid()
    {
      if editIndex.Some? {
        var updated := new EmtIncidentData[|incidents|](i requires 0 <= i < |incidents| reads this => incidents[i]);
        updated[editIndex.value] := data;
        incidents := updated[..];
      } else {
        incidents := [data] + incidents;
      }
      view := EmtScreen;
    }

    /** "Continue" on the EMT dashboard: edit the first incident, if there is one. */
    method OnContinue()
      modifies this
      ensures |old(incidents)| > 0 ==> view == EmtEditScreen(0)
      ensures |old(incidents)| == 0 ==> view == old(view)
      ensures notes == old(notes) && incidents == old(incidents)
      ensures old(Valid()) ==> Valid()
    {
      if |incidents| > 0 {
        view := EmtEditScreen(0);
      }
    }

    /**
     * `onSelect` from the history screen, as written: the position `k` in the
     * filtered list becomes the index into the saved list.
     */
    method SelectFromHistory(c: EmtHistory.Clock, crit: EmtHistory.Criteria, k: nat)
      modifies this
      requires k < |EmtHistory.FilterIncidents(c, crit, incidents)|
      ensures notes == old(notes) && incidents == old(incidents)
      ensures view == EmtViewScreen(k)
      ensures Valid()
    {
      view := EmtViewScreen(k);
    }

    /** Opening the `k`-th listed incident by its index in the saved list: the detail screen shows that incident. */
    method SelectListed(c: EmtHistory.Clock, crit: EmtHistory.Criteria, k: nat)
      modifies this
      requires k < |EmtHistory.FilterIncidents(c, crit, incidents)|
      ensures notes == old(notes) && incidents == old(incidents)
      ensures view == EmtViewScreen(EmtHistory.SourceIndex(c, crit, incidents, k))
      ensures ViewedIncident() == Some(EmtHistory.FilterIncidents(c, crit, incidents)[k])
      ensures Valid()
    {
      var i := EmtHistory.SourceIndex(c, crit, incidents, k);
      view := EmtViewScreen(i);
    }
  }

  /** Replacing slot `i` changes that slot only: the length and every other slot stay. */
  lemma ReplaceSlot(incidents: seq<EmtIncidentData>, i: int, data: EmtIncidentData)
    requires 0 <= i < |incidents|
    ensures |incidents[i := data]| == |incidents| && incidents[i := data][i] == data
    ensures forall j :: 0 <= j < |incidents| && j != i ==> incidents[i := data][j] == incidents[j]
  {
  }
}
