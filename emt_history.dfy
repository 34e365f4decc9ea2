/**
 * The saved-EMT-incidents screen (`pages/EMTIncidentHistory.tsx`): a date
 * window, an AND over the selected condition chips and a case-insensitive
 * text search, applied as one order-preserving filter.
 */
module EmtHistory {
  import opened Seqs
  import opened Text
  import opened EmtIncident
  import ListEdit

  /** The four date buttons: "all", "today", "7" and "30". */
  datatype DateFilter = All | Today | Last7 | Last30

  /** The screen's filter state. */
  datatype Criteria = Criteria(searchQuery: string, activeConditions: seq<string>, dateFilter: DateFilter)

  /** The initial filter state: no search, no chips, all dates. */
  const NoCriteria := Criteria("", [], All)

  /**
   * The browser clock: the current instant in milliseconds and the local
   * time zone's offset from UTC in milliseconds, taken as fixed.
   */
  datatype Clock = Clock(now: int, offset: int)

  const MsPerDay := 86400000

  /** The local calendar day of instant `t`, counted from the epoch (`toDateString`). */
  function LocalDay(c: Clock, t: int): int {
    (t + c.offset) / MsPerDay
  }

  /** Milliseconds since local midnight of instant `t`. */
  function TimeOfDay(c: Clock, t: int): int {
    (t + c.offset) % MsPerDay
  }

  /** The instant at local time `tod` on local day `day`. */
  function FromLocal(c: Clock, day: int, tod: int): int {
    day * MsPerDay + tod - c.offset
  }

  /** A `Date` for now after `setDate(getDate() - days)`: same local time, `days` calendar days earlier. */
  function Cutoff(c: Clock, days: nat): (r: int)
    ensures r == c.now - days * MsPerDay
    ensures LocalDay(c, r) == LocalDay(c, c.now) - days
  {
    FromLocal(c, LocalDay(c, c.now) - days, TimeOfDay(c, c.now))
  }

  /** The date-window test, on the instant the record was created. */
  predicate PassesDate(c: Clock, f: DateFilter, createdAt: int) {
    match f
    case All => true
    case Today => LocalDay(c, createdAt) == LocalDay(c, c.now)
    case Last7 => !(createdAt < Cutoff(c, 7))
    case Last30 => !(createdAt < Cutoff(c, 30))
  }

  /** With chips selected, every one of them must be among the record's conditions. */
  predicate PassesConditions(active: seq<string>, incident: EmtIncidentData) {
    |active| > 0 ==> forall i :: 0 <= i < |active| ==> active[i] in incident.conditions
  }

  /** `entries.some((e) => e.toLowerCase().includes(needle))`. */
  predicate SomeIncludes(entries: seq<string>, needle: string) {
    exists i :: 0 <= i < |entries| && Includes(Lower(entries[i]), needle)
  }

  /** A non-empty search must hit the notes or an entry of the timeline, vitals or conditions. */
  predicate PassesSearch(query: string, incident: EmtIncidentData) {
    var search := Lower(query);
    search != "" ==>
      Includes(Lower(incident.notes), search) || SomeIncludes(incident.timeline, search) ||
      SomeIncludes(incident.vitals, search) || SomeIncludes(incident.conditions, search)
  }

  /** The body of the `filteredIncidents` callback. */
  predicate Matches(c: Clock, crit: Criteria, incident: EmtIncidentData) {
    PassesDate(c, crit.dateFilter, incident.createdAt) &&
    PassesConditions(crit.activeConditions, incident) &&
    PassesSearch(crit.searchQuery, incident)
  }

  function MatchesFn(c: Clock, crit: Criteria): EmtIncidentData -> bool {
    incident => Matches(c, crit, incident)
  }

  /** `filteredIncidents`: the records that pass, in their saved order. */
  function FilterIncidents(c: Clock, crit: Criteria, incidents: seq<EmtIncidentData>): (r: seq<EmtIncidentData>)
    ensures IsSubsequence(r, incidents)
    ensures forall i :: 0 <= i < |r| ==> Matches(c, crit, r[i])
    ensures forall i :: 0 <= i < |incidents| && Matches(c, crit, incidents[i]) ==> incidents[i] in r
    ensures forall x :: multiset(r)[x] == if Matches(c, crit, x) then multiset(incidents)[x] else 0
  {
    FilterIsSubsequence(MatchesFn(c, crit), incidents);
    forall x ensures multiset(Filter(MatchesFn(c, crit), incidents))[x] ==
                     if Matches(c, crit, x) then multiset(incidents)[x] else 0 {
      FilterCount(MatchesFn(c, crit), incidents, x);
    }
    Filter(MatchesFn(c, crit), incidents)
  }

  /** With no search, no chips and "all" dates, every record is listed, in order. */
  lemma NoCriteriaIsIdentity(c: Clock, incidents: seq<EmtIncidentData>)
    ensures FilterIncidents(c, NoCriteria, incidents) == incidents
  {
    assert Lower("") == "";
    FilterAll(MatchesFn(c, NoCriteria), incidents);
  }

  /** "today" keeps a record exactly when it was created between local midnight and the next one. */
  lemma TodayWindow(c: Clock, t: int)
    ensures PassesDate(c, Today, t) <==>
            FromLocal(c, LocalDay(c, c.now), 0) <= t < FromLocal(c, LocalDay(c, c.now) + 1, 0)
  {
    var d := LocalDay(c, c.now);
    var x := t + c.offset;
    if d * MsPerDay <= x < d * MsPerDay + MsPerDay {
      assert x / MsPerDay == d;
    }
  }

  /** "7" and "30" keep a record exactly when it is no older than that many days; the cutoff itself is kept. */
  lemma WindowCutoffs(c: Clock, t: int)
    ensures PassesDate(c, Last7, t) <==> t >= c.now - 7 * MsPerDay
    ensures PassesDate(c, Last30, t) <==> t >= c.now - 30 * MsPerDay
    ensures PassesDate(c, Last7, Cutoff(c, 7)) && PassesDate(c, Last30, Cutoff(c, 30))
  {
  }

  /** The windows are nested: a record from today is within 7 days, one within 7 days is within 30. */
  lemma WindowsNested(c: Clock, t: int)
    requires t <= c.now
    ensures PassesDate(c, Today, t) ==> PassesDate(c, Last7, t)
    ensures PassesDate(c, Last7, t) ==> PassesDate(c, Last30, t)
  {
    TodayWindow(c, t);
    TodayWindow(c, c.now);
  }

  /** The text each search looks through, notes first. */
  function SearchFields(incident: EmtIncidentData): (r: seq<string>)
    ensures |r| == 1 + |incident.timeline| + |incident.vitals| + |incident.conditions|
    ensures r[0] == incident.notes
    ensures r[1..] == incident.timeline + incident.vitals + incident.conditions
    ensures forall x :: x in r <==>
              x == incident.notes || x in incident.timeline || x in incident.vitals || x in incident.conditions
  {
    [incident.notes] + incident.timeline + incident.vitals + incident.conditions
  }

  lemma SomeIncludesIff(entries: seq<string>, needle: string)
    ensures SomeIncludes(entries, needle) <==>
            exists k, i :: 0 <= k < |entries| && OccursAt(Lower(entries[k]), needle, i)
  {
    forall k | 0 <= k < |entries| {
      IncludesIff(Lower(entries[k]), needle);
    }
  }

  /**
   * A non-empty search keeps a record exactly when the lower-cased query
   * occurs at some position of the lower-cased text of one of its fields.
   */
  lemma SearchMeaning(query: string, incident: EmtIncidentData)
    ensures PassesSearch(query, incident) <==>
            query == "" ||
            exists k, i :: 0 <= k < |SearchFields(incident)| &&
                           OccursAt(Lower(SearchFields(incident)[k]), Lower(query), i)
  {
    var s := Lower(query);
    var fs := SearchFields(incident);
    var t, v, cs := incident.timeline, incident.vitals, incident.conditions;
    assert query == "" <==> s == "";
    IncludesIff(Lower(incident.notes), s);
    SomeIncludesIff(t, s);
    SomeIncludesIff(v, s);
    SomeIncludesIff(cs, s);
    if s != "" {
      if PassesSearch(query, incident) {
        if Includes(Lower(incident.notes), s) {
          var i :| OccursAt(Lower(incident.notes), s, i);
          assert OccursAt(Lower(fs[0]), s, i);
        } else if SomeIncludes(t, s) {
          var k, i :| 0 <= k < |t| && OccursAt(Lower(t[k]), s, i);
          assert fs[1 + k] == t[k];
        } else if SomeIncludes(v, s) {
          var k, i :| 0 <= k < |v| && OccursAt(Lower(v[k]), s, i);
          assert fs[1 + |t| + k] == v[k];
        } else {
          var k, i :| 0 <= k < |cs| && OccursAt(Lower(cs[k]), s, i);
          assert fs[1 + |t| + |v| + k] == cs[k];
        }
      }
      if exists k, i :: 0 <= k < |fs| && OccursAt(Lower(fs[k]), s, i) {
        var k, i :| 0 <= k < |fs| && OccursAt(Lower(fs[k]), s, i);
        if k == 0 {
        } else if k < 1 + |t| {
          assert fs[k] == t[k - 1];
        } else if k < 1 + |t| + |v| {
          assert fs[k] == v[k - 1 - |t|];
        } else {
          assert fs[k] == cs[k - 1 - |t| - |v|];
        }
      }
    }
  }

  /** The search ignores the case of the query. */
  lemma SearchIgnoresQueryCase(query: string, incident: EmtIncidentData)
    ensures PassesSearch(Lower(query), incident) == PassesSearch(query, incident)
  {
    LowerIdempotent(query);
  }

  /** Selecting one more chip keeps exactly the records that were kept and carry that condition. */
  lemma AddedConditionNarrows(c: Clock, crit: Criteria, x: string, incident: EmtIncidentData)
    ensures Matches(c, crit.(activeConditions := crit.activeConditions + [x]), incident) <==>
            Matches(c, crit, incident) && x in incident.conditions
  {
    var a := crit.activeConditions + [x];
    assert a[|a| - 1] == x;
    if PassesConditions(crit.activeConditions, incident) && x in incident.conditions {
      forall i | 0 <= i < |a| ensures a[i] in incident.conditions {
        if i < |a| - 1 {
          assert a[i] == crit.activeConditions[i];
        }
      }
    }
    if PassesConditions(a, incident) {
      forall i | 0 <= i < |crit.activeConditions| ensures crit.activeConditions[i] in incident.conditions {
        assert a[i] == crit.activeConditions[i];
      }
    }
  }

  /** AND semantics: selecting one more chip can only shorten the list, and keeps its order. */
  lemma AddedConditionShrinks(c: Clock, crit: Criteria, x: string, incidents: seq<EmtIncidentData>)
    ensures IsSubsequence(FilterIncidents(c, crit.(activeConditions := crit.activeConditions + [x]), incidents),
                          FilterIncidents(c, crit, incidents))
  {
    var more := crit.(activeConditions := crit.activeConditions + [x]);
    forall incident ensures MatchesFn(c, more)(incident) ==> MatchesFn(c, crit)(incident) {
      AddedConditionNarrows(c, crit, x, incident);
    }
    FilterMonotone(MatchesFn(c, crit), MatchesFn(c, more), incidents);
  }

  /**
   * A chip press on an unselected label narrows the list to the records with
   * that condition; on any label it keeps the selection duplicate-free.
   */
  lemma ChipToggle(c: Clock, crit: Criteria, x: string, incident: EmtIncidentData)
    ensures var toggled := crit.(activeConditions := ListEdit.Toggle(crit.activeConditions, x));
            (x !in crit.activeConditions ==>
               (Matches(c, toggled, incident) <==> Matches(c, crit, incident) && x in incident.conditions)) &&
            (NoDup(crit.activeConditions) ==> NoDup(toggled.activeConditions))
  {
    ListEdit.ToggleSpec(crit.activeConditions, x);
    AddedConditionNarrows(c, crit, x, incident);
  }

  /*
   * Opening a listed record. The list hands the record's position in the
   * FILTERED list to the app, which shows that position of the UNFILTERED list.
   */

  /**
   * With one chip selected, the first listed record is the second saved one,
   * yet the screen reports index 0 and the app opens the first saved one.
   */
  lemma ReportedIndexMismatch()
    ensures var clock := Clock(0, 0);
            var crit := NoCriteria.(activeConditions := ["Shock"]);
            var a := EmtIncidentData([], "", [], [], 0);
            var b := EmtIncidentData([], "", [], ["Shock"], 0);
            FilterIncidents(clock, crit, [a, b]) == [b] &&
            [a, b][0] != FilterIncidents(clock, crit, [a, b])[0]
  {
    var clock := Clock(0, 0);
    var crit := NoCriteria.(activeConditions := ["Shock"]);
    var a := EmtIncidentData([], "", [], [], 0);
    var b := EmtIncidentData([], "", [], ["Shock"], 0);
    assert crit.activeConditions[0] == "Shock" && "Shock" !in a.conditions;
    assert !Matches(clock, crit, a);
    assert Lower("") == "";
    assert Matches(clock, crit, b);
    assert Filter(MatchesFn(clock, crit), [b]) == [b];
    assert [a, b][1..] == [b];
  }

  /** The index into the saved list of the `k`-th listed record: what the view needs. */
  function SourceIndex(c: Clock, crit: Criteria, incidents: seq<EmtIncidentData>, k: nat): (r: nat)
    requires k < |FilterIncidents(c, crit, incidents)|
    ensures r < |incidents| && incidents[r] == FilterIncidents(c, crit, incidents)[k]
  {
    IndexOf(incidents, FilterIncidents(c, crit, incidents)[k])
  }
}
