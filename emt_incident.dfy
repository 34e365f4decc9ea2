/**
 * The EMT workspace screen (`pages/EMTIncident.tsx`): an append-only timeline
 * of quick-action events, an append-only vitals log, condition tags toggled by
 * chips, free-form notes, and the save handler that hands the record to the app.
 */
module EmtIncident {
  import opened Seqs
  import ListEdit

  /**
   * A saved EMT incident. The source stores `createdAt` as an ISO date string
   * that every reader turns back into a `Date`; here it is that instant in
   * milliseconds.
   */
  datatype EmtIncidentData = EmtIncidentData(
    timeline: seq<string>,
    notes: string,
    vitals: seq<string>,
    conditions: seq<string>,
    createdAt: int)

  /** The quick-action timeline buttons, in screen order. */
  const TimelineLabels: seq<string> :=
    ["Arrival", "Patient Contact", "Treatment Started", "Transport Started", "Arrived at Hospital", "Cleared Scene"]

  /** The vitals buttons, in screen order. */
  const VitalLabels: seq<string> := ["BP", "Pulse", "SpO₂", "Respirations", "Temperature"]

  /** The condition chips, in screen order (the history screen offers the same eight). */
  const ConditionTags: seq<string> :=
    ["Conscious", "Unconscious", "Breathing", "Not Breathing", "Bleeding", "Shock", "Cardiac", "Trauma"]

  /** The separator between an entry's label and its time. */
  const Separator: string := " — "

  /** The entry `${action} — ${time}` that `addEvent` logs. */
  function EventEntry(action: string, time: string): (r: string)
    ensures |r| == |action| + |Separator| + |time|
    ensures r[..|action|] == action && r[|action|..|action| + |Separator|] == Separator
    ensures r[|r| - |time|..] == time
  {
    action + Separator + time
  }

  /** The entry `${v} recorded — ${time}` that a vitals button logs. */
  function VitalEntry(v: string, time: string): (r: string)
    ensures r == EventEntry(v + " recorded", time)
    ensures r[..|v|] == v
  {
    assert (v + " recorded" + Separator + time)[..|v|] == v;
    v + " recorded" + Separator + time
  }

  /** No label of `labels` is a proper or improper prefix of a different one. */
  predicate PrefixFree(labels: seq<string>) {
    forall i, j :: 0 <= i < |labels| && 0 <= j < |labels| && i != j ==>
      !(|labels[i]| <= |labels[j]| && labels[j][..|labels[i]|] == labels[i])
  }

  /** Each pair of timeline labels differs at position 0, 2 or 6 ("Arrival" / "Arrived at Hospital"). */
  lemma TimelineLabelsPrefixFree()
    ensures PrefixFree(TimelineLabels)
  {
    var L := TimelineLabels;
    forall i, j | 0 <= i < |L| && 0 <= j < |L| && i != j
      ensures !(|L[i]| <= |L[j]| && L[j][..|L[i]|] == L[i])
    {
      if |L[i]| <= |L[j]| {
        var k := if L[i][0] != L[j][0] then 0 else if L[i][2] != L[j][2] then 2 else 6;
        assert L[j][..|L[i]|][k] != L[i][k];
      }
    }
  }

  /** The vitals labels all start with different letters. */
  lemma VitalLabelsPrefixFree()
    ensures PrefixFree(VitalLabels)
  {
    var L := VitalLabels;
    forall i, j | 0 <= i < |L| && 0 <= j < |L| && i != j
      ensures !(|L[i]| <= |L[j]| && L[j][..|L[i]|] == L[i])
    {
      if |L[i]| <= |L[j]| {
        assert L[j][..|L[i]|][0] != L[i][0];
      }
    }
  }

  /**
   * With a prefix-free label set, an entry determines both the button that was
   * pressed and the time it was pressed at: the log loses nothing.
   */
  lemma EntryDecodes(labels: seq<string>, l1: string, t1: string, l2: string, t2: string)
    requires PrefixFree(labels) && l1 in labels && l2 in labels
    requires EventEntry(l1, t1) == EventEntry(l2, t2)
    ensures l1 == l2 && t1 == t2
  {
    var e := EventEntry(l1, t1);
    // Both labels are prefixes of `e`, so the shorter is a prefix of the longer.
    assert l1 == l2;
    assert t1 == e[|e| - |t1|..];
  }

  /** The workspace's state: one field per `useState` of the screen. */
  class EmtIncidentForm {
    var timeline: seq<string>
    var notes: string
    var vitals: seq<string>
    var conditions: seq<string>

    /** The condition list is duplicate-free and made of chip labels. */
    ghost predicate Valid()
      reads this
    {
      NoDup(conditions) && forall i :: 0 <= i < |conditions| ==> conditions[i] in ConditionTags
    }

    /** A fresh workspace: every log empty, no notes. */
    constructor ()
      ensures timeline == [] && notes == "" && vitals == [] && conditions == []
      ensures Valid()
    {
      timeline, notes, vitals, conditions := [], "", [], [];
    }

    /** `addEvent(action)` at local time `time`: one entry appended, nothing else changes. */
    method AddEvent(action: string, time: string)
      modifies this
      ensures timeline == old(timeline) + [EventEntry(action, time)]
      ensures notes == old(notes) && vitals == old(vitals) && conditions == old(conditions)
    {
      timeline := timeline + [action + Separator + time];
    }

    /** A vitals button for `v`, pressed at local time `time`. */
    method RecordVitals(v: string, time: string)
      modifies this
      ensures vitals == old(vitals) + [VitalEntry(v, time)]
      ensures timeline == old(timeline) && notes == old(notes) && conditions == old(conditions)
    {
      vitals := vitals + [v + " recorded" + Separator + time];
    }

    /** A condition chip: removes `tag` if present, appends it if absent. */
    method ToggleCondition(tag: string)
      modifies this
      ensures conditions == ListEdit.Toggle(old(conditions), tag)
      ensures tag in conditions <==> tag !in old(conditions)
      ensures timeline == old(timeline) && notes == old(notes) && vitals == old(vitals)
      ensures old(Valid()) && tag in ConditionTags ==> Valid()
    {
      ListEdit.ToggleSpec(conditions, tag);
      ListEdit.RemoveAllSpec(conditions, tag);
      ghost var before := conditions;
      if tag in conditions {
        conditions := ListEdit.RemoveAll(conditions, tag);
        ListEdit.SubsequenceMembers(conditions, before);
      } else {
        conditions := conditions + [tag];
      }
    }

    /** The notes text area. */
    method SetNotes(value: string)
      modifies this
      ensures notes == value
      ensures timeline == old(timeline) && vitals == old(vitals) && conditions == old(conditions)
    {
      notes := value;
    }

    /** `handleSave` at instant `createdAt`: the current logs and notes, unchanged. */
    method HandleSave(createdAt: int) returns (incident: EmtIncidentData)
      ensures incident.timeline == timeline && incident.notes == notes
      ensures incident.vitals == vitals && incident.conditions == conditions
      ensures incident.createdAt == createdAt
    {
      incident := EmtIncidentData(timeline, notes, vitals, conditions, createdAt);
    }
  }
}
