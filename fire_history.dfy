/**
 * The Firefighter incident history screen (`pages/FireIncidentHistory.tsx`):
 * the de-duplicated tag and unit option lists, and the filter, search and
 * newest/oldest sort pipeline behind the incident list.
 */
module FireHistory {
  import opened Wrappers
  import opened Seqs
  import opened Text
  import opened FireData

  /** `lists.flatMap((l) => l ?? [])`: the optional lists in order, missing ones skipped. */
  function Flatten(lists: seq<Option<seq<string>>>): seq<string> {
    if lists == [] then [] else Flatten(lists[..|lists| - 1]) + lists[|lists| - 1].GetOr([])
  }

  /** A string is in the flattened list exactly when it is in one of the lists. */
  lemma {:induction false} FlattenMembers(lists: seq<Option<seq<string>>>)
    ensures forall x :: x in Flatten(lists) <==> exists k :: 0 <= k < |lists| && x in lists[k].GetOr([])
  {
    if lists != [] {
      var init := lists[..|lists| - 1];
      var last := lists[|lists| - 1].GetOr([]);
      FlattenMembers(init);
      forall x ensures x in Flatten(lists) <==> exists k :: 0 <= k < |lists| && x in lists[k].GetOr([]) {
        if x in Flatten(init) {
          var k :| 0 <= k < |init| && x in init[k].GetOr([]);
          assert init[k] == lists[k];
        }
        if exists k :: 0 <= k < |lists| && x in lists[k].GetOr([]) {
          var k :| 0 <= k < |lists| && x in lists[k].GetOr([]);
          if k < |init| {
            assert init[k] == lists[k];
          }
        }
      }
    }
  }

  /** The elements of `s` in the order they first occur, each once. */
  function Distinct(s: seq<string>): (r: seq<string>)
    ensures NoDup(r)
    ensures forall x :: x in r <==> x in s
  {
    if s == [] then []
    else
      var d := Distinct(s[..|s| - 1]);
      assert s == s[..|s| - 1] + [s[|s| - 1]];
      if s[|s| - 1] in d then d else d + [s[|s| - 1]]
  }

  /** The elements of `r` occur in `s`, and earlier in `r` means first seen earlier in `s`. */
  predicate FirstSeenOrder(r: seq<string>, s: seq<string>) {
    (forall i :: 0 <= i < |r| ==> r[i] in s) &&
    forall i, j :: 0 <= i < j < |r| ==> IndexOf(s, r[i]) < IndexOf(s, r[j])
  }

  /** Items come out of `Distinct` in the order of their first occurrence in the input. */
  lemma {:induction false} DistinctFirstSeen(s: seq<string>)
    ensures FirstSeenOrder(Distinct(s), s)
  {
    if s != [] {
      var init := s[..|s| - 1];
      var d := Distinct(init);
      DistinctFirstSeen(init);
      forall x | x in init ensures IndexOf(s, x) == IndexOf(init, x) {
        IndexOfPrefix(init, s, x);
      }
      if s[|s| - 1] !in d {
        var r := d + [s[|s| - 1]];
        assert r == Distinct(s);
        forall i, j | 0 <= i < j < |r| ensures r[i] in s && r[j] in s && IndexOf(s, r[i]) < IndexOf(s, r[j]) {
          assert r[i] in r && r[j] in r;
          if j == |r| - 1 {
            assert r[i] == d[i] && r[i] in init;
          } else {
            assert r[i] == d[i] && r[j] == d[j];
          }
        }
      }
    }
  }

  lemma {:induction false} IndexOfPrefix(a: seq<string>, s: seq<string>, x: string)
    requires x in a && |a| <= |s| && a == s[..|a|]
    ensures IndexOf(s, x) == IndexOf(a, x)
  {
    if a[0] != x {
      assert a[1..] == s[1..][..|a| - 1];
      IndexOfPrefix(a[1..], s[1..], x);
    }
  }

  /** Adding the items of `items` one by one to a first-seen list. */
  lemma DistinctAppend(s: seq<string>, x: string)
    ensures Distinct(s + [x]) == if x in Distinct(s) then Distinct(s) else Distinct(s) + [x]
  {
    assert (s + [x])[..|s|] == s;
  }

  /**
   * The `useMemo` body behind `allTags` and `allUnits`: a `Set` filled by
   * nested `forEach` loops, then spread into an array (a `Set` iterates in
   * insertion order). Here `r` is that set, kept in insertion order.
   */
  method CollectDistinct(lists: seq<Option<seq<string>>>) returns (r: seq<string>)
    ensures r == Distinct(Flatten(lists))
  {
    r := [];
    var k := 0;
    while k < |lists|
      invariant 0 <= k <= |lists|
      invariant r == Distinct(Flatten(lists[..k]))
    {
      assert lists[..k + 1][..k] == lists[..k];
      match lists[k] {
        case None =>
          assert Flatten(lists[..k + 1]) == Flatten(lists[..k]) + [];
          assert Flatten(lists[..k]) + [] == Flatten(lists[..k]);
        case Some(items) =>
          assert Flatten(lists[..k + 1]) == Flatten(lists[..k]) + items;
          r := AddEach(r, Flatten(lists[..k]), items);
          assert r == Distinct(Flatten(lists[..k + 1]));
      }
      k := k + 1;
    }
    assert lists[..k] == lists;
  }

  /** The inner `forEach`: `set.add` for each item in turn. */
  method AddEach(r0: seq<string>, ghost seen: seq<string>, items: seq<string>) returns (r: seq<string>)
    requires r0 == Distinct(seen)
    ensures r == Distinct(seen + items)
  {
    r := r0;
    var j := 0;
    assert seen + items[..0] == seen;
    while j < |items|
      invariant 0 <= j <= |items|
      invariant r == Distinct(seen + items[..j])
    {
      DistinctAppend(seen + items[..j], items[j]);
      assert seen + items[..j + 1] == (seen + items[..j]) + [items[j]];
      if items[j] !in r {
        r := r + [items[j]];
      }
      j := j + 1;
    }
    assert items[..j] == items;
  }

  function TagLists(incidents: seq<FireIncidentData>): seq<Option<seq<string>>> {
    seq(|incidents|, i requires 0 <= i < |incidents| => incidents[i].tags)
  }

  function UnitLists(incidents: seq<FireIncidentData>): seq<Option<seq<string>>> {
    seq(|incidents|, i requires 0 <= i < |incidents| => incidents[i].units)
  }

  /** `allTags`: every tag of every incident, each once, in first-seen order. */
  method AllTags(incidents: seq<FireIncidentData>) returns (tags: seq<string>)
    ensures NoDup(tags)
    ensures forall t :: t in tags <==> exists i :: 0 <= i < |incidents| && t in incidents[i].tags.GetOr([])
    ensures FirstSeenOrder(tags, Flatten(TagLists(incidents)))
  {
    tags := CollectDistinct(TagLists(incidents));
    FlattenMembers(TagLists(incidents));
    forall t ensures t in Flatten(TagLists(incidents)) <==>
                    exists i :: 0 <= i < |incidents| && t in incidents[i].tags.GetOr([]) {
      if exists k :: 0 <= k < |TagLists(incidents)| && t in TagLists(incidents)[k].GetOr([]) {
        var k :| 0 <= k < |TagLists(incidents)| && t in TagLists(incidents)[k].GetOr([]);
        assert t in incidents[k].tags.GetOr([]);
      }
      if exists i :: 0 <= i < |incidents| && t in incidents[i].tags.GetOr([]) {
        var i :| 0 <= i < |incidents| && t in incidents[i].tags.GetOr([]);
        assert t in TagLists(incidents)[i].GetOr([]);
      }
    }
    DistinctFirstSeen(Flatten(TagLists(incidents)));
  }

  /** `allUnits`: every unit of every incident, each once, in first-seen order. */
  method AllUnits(incidents: seq<FireIncidentData>) returns (units: seq<string>)
    ensures NoDup(units)
    ensures forall u :: u in units <==> exists i :: 0 <= i < |incidents| && u in incidents[i].units.GetOr([])
    ensures FirstSeenOrder(units, Flatten(UnitLists(incidents)))
  {
    units := CollectDistinct(UnitLists(incidents));
    FlattenMembers(UnitLists(incidents));
    forall u ensures u in Flatten(UnitLists(incidents)) <==>
                    exists i :: 0 <= i < |incidents| && u in incidents[i].units.GetOr([]) {
      if exists k :: 0 <= k < |UnitLists(incidents)| && u in UnitLists(incidents)[k].GetOr([]) {
        var k :| 0 <= k < |UnitLists(incidents)| && u in UnitLists(incidents)[k].GetOr([]);
        assert u in incidents[k].units.GetOr([]);
      }
      if exists i :: 0 <= i < |incidents| && u in incidents[i].units.GetOr([]) {
        var i :| 0 <= i < |incidents| && u in incidents[i].units.GetOr([]);
        assert u in UnitLists(incidents)[i].GetOr([]);
      }
    }
    DistinctFirstSeen(Flatten(UnitLists(incidents)));
  }

  datatype SortOrder = Newest | Oldest

  /** The screen's controls; each select uses the value "all" for no constraint. */
  datatype FireFilters = FireFilters(
    searchTerm: string,
    filterType: string,
    filterSeverity: string,
    filterTag: string,
    filterUnit: string,
    sortOrder: SortOrder)

  const AllValue := "all"

  /** The initial controls: empty search, every select on "all", newest first. */
  const NoFilters := FireFilters("", AllValue, AllValue, AllValue, AllValue, Newest)

  /** The search looks through the five text fields only, not tags or units. */
  predicate SearchHit(text: string, incident: FireIncidentData) {
    Includes(Lower(incident.fireType), text) || Includes(Lower(incident.arrivalConditions), text) ||
    Includes(Lower(incident.hazards), text) || Includes(Lower(incident.actionsTaken), text) ||
    Includes(Lower(incident.notes), text)
  }

  /** The `.filter` callback: type, severity, tag and unit selects, then the search. */
  predicate Matches(f: FireFilters, incident: FireIncidentData) {
    (f.filterType == AllValue || incident.fireType == f.filterType) &&
    (f.filterSeverity == AllValue || incident.severity == Some(f.filterSeverity)) &&
    (f.filterTag == AllValue || f.filterTag in incident.tags.GetOr([])) &&
    (f.filterUnit == AllValue || f.filterUnit in incident.units.GetOr([])) &&
    SearchHit(Lower(f.searchTerm), incident)
  }

  function MatchesFn(f: FireFilters): FireIncidentData -> bool {
    (incident: FireIncidentData) => Matches(f, incident)
  }

  /** `a` goes strictly before `b` under the comparator (`tB - tA` or `tA - tB` negative). */
  predicate Precedes(order: SortOrder, a: FireIncidentData, b: FireIncidentData) {
    match order
    case Newest => a.timestamp > b.timestamp
    case Oldest => a.timestamp < b.timestamp
  }

  /** No later element goes strictly before an earlier one. */
  predicate Sorted(order: SortOrder, s: seq<FireIncidentData>) {
    forall i, j :: 0 <= i < j < |s| ==> !Precedes(order, s[j], s[i])
  }

  /** Places `x` ahead of the first element of `t` that does not go strictly before it. */
  function Insert(order: SortOrder, x: FireIncidentData, t: seq<FireIncidentData>): (r: seq<FireIncidentData>)
    ensures multiset(r) == multiset(t) + multiset{x}
  {
    if t == [] || !Precedes(order, t[0], x) then [x] + t
    else
      assert t == [t[0]] + t[1..];
      [t[0]] + Insert(order, x, t[1..])
  }

  /** Inserting into a sorted list keeps it sorted. */
  lemma {:induction false} InsertSorted(order: SortOrder, x: FireIncidentData, t: seq<FireIncidentData>)
    requires Sorted(order, t)
    ensures Sorted(order, Insert(order, x, t))
  {
    if t != [] && Precedes(order, t[0], x) {
      var rest := Insert(order, x, t[1..]);
      InsertSorted(order, x, t[1..]);
      var r := [t[0]] + rest;
      forall j | 1 <= j < |r| ensures !Precedes(order, r[j], t[0]) {
        assert r[j] == rest[j - 1];
        InsertAfterHead(order, x, t, r[j]);
      }
      assert forall i, j :: 1 <= i < j < |r| ==> r[i] == rest[i - 1] && r[j] == rest[j - 1];
    }
  }

  /** What Insert places after the head of a sorted list never goes strictly before that head. */
  lemma InsertAfterHead(order: SortOrder, x: FireIncidentData, t: seq<FireIncidentData>, y: FireIncidentData)
    requires Sorted(order, t) && t != [] && Precedes(order, t[0], x)
    requires y in Insert(order, x, t[1..])
    ensures !Precedes(order, y, t[0])
  {
    assert y in multiset(Insert(order, x, t[1..]));
    if y != x {
      assert y in multiset(t[1..]);
      var k :| 0 <= k < |t[1..]| && t[1..][k] == y;
      assert t[k + 1] == y;
    }
  }

  /** A stable sort by timestamp: `Array.prototype.sort` with the screen's comparator. */
  function SortByTime(order: SortOrder, s: seq<FireIncidentData>): (r: seq<FireIncidentData>)
    ensures multiset(r) == multiset(s)
    ensures Sorted(order, r)
  {
    if s == [] then [] else
      assert s == [s[0]] + s[1..];
      InsertSorted(order, s[0], SortByTime(order, s[1..]));
      Insert(order, s[0], SortByTime(order, s[1..]))
  }

  function HasTime(t: int): FireIncidentData -> bool {
    (incident: FireIncidentData) => incident.timestamp == t
  }

  lemma {:induction false} InsertStable(order: SortOrder, x: FireIncidentData, u: seq<FireIncidentData>, t: int)
    ensures Filter(HasTime(t), Insert(order, x, u)) == Filter(HasTime(t), [x] + u)
  {
    if u != [] && Precedes(order, u[0], x) {
      var p := HasTime(t);
      var rest := Insert(order, x, u[1..]);
      var head: seq<FireIncidentData> := if p(u[0]) then [u[0]] else [];
      var mid: seq<FireIncidentData> := if p(x) then [x] else [];
      calc {
        Filter(p, Insert(order, x, u));
        { assert Insert(order, x, u) == [u[0]] + rest; }
        Filter(p, [u[0]] + rest);
        { FilterCons(p, u[0], rest); }
        head + Filter(p, rest);
        { InsertStable(order, x, u[1..], t); }
        head + Filter(p, [x] + u[1..]);
        { FilterCons(p, x, u[1..]); }
        head + (mid + Filter(p, u[1..]));
        // The two timestamps differ, so at most one of them is kept.
        { assert u[0].timestamp != x.timestamp; SwapEmpty(head, mid, Filter(p, u[1..])); }
        mid + (head + Filter(p, u[1..]));
        { FilterCons(p, u[0], u[1..]); assert [u[0]] + u[1..] == u; }
        mid + Filter(p, u);
        { FilterCons(p, x, u); }
        Filter(p, [x] + u);
      }
    }
  }

  /** Two pieces of which one is empty can be concatenated in either order. */
  lemma SwapEmpty<T>(a: seq<T>, b: seq<T>, c: seq<T>)
    requires a == [] || b == []
    ensures a + (b + c) == b + (a + c)
  {
  }

  /** Stability: incidents with the same timestamp keep their input order. */
  lemma {:induction false} SortStable(order: SortOrder, s: seq<FireIncidentData>, t: int)
    ensures Filter(HasTime(t), SortByTime(order, s)) == Filter(HasTime(t), s)
  {
    if s != [] {
      var p := HasTime(t);
      var sorted := SortByTime(order, s[1..]);
      calc {
        Filter(p, SortByTime(order, s));
        { assert SortByTime(order, s) == Insert(order, s[0], sorted); }
        Filter(p, Insert(order, s[0], sorted));
        { InsertStable(order, s[0], sorted, t); }
        Filter(p, [s[0]] + sorted);
        { FilterCons(p, s[0], sorted); SortStable(order, s[1..], t); FilterCons(p, s[0], s[1..]); }
        Filter(p, [s[0]] + s[1..]);
        { assert [s[0]] + s[1..] == s; }
        Filter(p, s);
      }
    }
  }

  /** `filtered`: the matching incidents, sorted by timestamp as the order select says. */
  function Filtered(f: FireFilters, incidents: seq<FireIncidentData>): (r: seq<FireIncidentData>)
    ensures forall x :: multiset(r)[x] == if Matches(f, x) then multiset(incidents)[x] else 0
    ensures f.sortOrder == Newest ==> forall i, j :: 0 <= i < j < |r| ==> r[i].timestamp >= r[j].timestamp
    ensures f.sortOrder == Oldest ==> forall i, j :: 0 <= i < j < |r| ==> r[i].timestamp <= r[j].timestamp
    ensures forall t :: Filter(HasTime(t), r) == Filter(HasTime(t), Filter(MatchesFn(f), incidents))
  {
    var kept := Filter(MatchesFn(f), incidents);
    forall x ensures multiset(kept)[x] == if Matches(f, x) then multiset(incidents)[x] else 0 {
      FilterCount(MatchesFn(f), incidents, x);
    }
    forall t ensures Filter(HasTime(t), SortByTime(f.sortOrder, kept)) == Filter(HasTime(t), kept) {
      SortStable(f.sortOrder, kept, t);
    }
    SortByTime(f.sortOrder, kept)
  }

  /** Every select on "all" and an empty search list every incident, each as often as it was saved. */
  lemma NoFiltersKeepsAll(incidents: seq<FireIncidentData>)
    ensures multiset(Filtered(NoFilters, incidents)) == multiset(incidents)
    ensures |Filtered(NoFilters, incidents)| == |incidents|
  {
    assert Lower("") == "";
    forall x ensures Matches(NoFilters, x) {
      IncludesEmpty(Lower(x.fireType));
    }
    FilterAll(MatchesFn(NoFilters), incidents);
  }

  /** Setting a select to "all" lifts its constraint: nothing listed disappears, and with every select on "all" only the search decides. */
  lemma AllImposesNothing(f: FireFilters, incident: FireIncidentData)
    ensures Matches(f, incident) ==>
              Matches(f.(filterType := AllValue), incident) && Matches(f.(filterSeverity := AllValue), incident) &&
              Matches(f.(filterTag := AllValue), incident) && Matches(f.(filterUnit := AllValue), incident)
    ensures Matches(f.(filterType := AllValue), incident) <==> Matches(f.(filterType := incident.fireType), incident)
    ensures var g := f.(filterType := AllValue, filterSeverity := AllValue, filterTag := AllValue, filterUnit := AllValue);
            Matches(g, incident) <==> SearchHit(Lower(f.searchTerm), incident)
  {
  }

  /** With a tag or unit selected, an incident without that list is never listed. */
  lemma MissingListsRejected(f: FireFilters, incident: FireIncidentData)
    ensures f.filterTag != AllValue && incident.tags.None? ==> !Matches(f, incident)
    ensures f.filterUnit != AllValue && incident.units.None? ==> !Matches(f, incident)
  {
  }

  /** The empty search matches every incident; tags and units never make a search hit. */
  lemma SearchScope(f: FireFilters, incident: FireIncidentData, tags: Option<seq<string>>, units: Option<seq<string>>)
    ensures SearchHit(Lower(""), incident)
    ensures SearchHit(Lower(f.searchTerm), incident) == SearchHit(Lower(f.searchTerm), incident.(tags := tags, units := units))
  {
    assert Lower("") == "";
    IncludesEmpty(Lower(incident.fireType));
  }

  /*
   * Opening a listed incident: the list reports `index`, the position in the
   * filtered and sorted list, and the viewer is given that position of the
   * saved list.
   */

  /** Two saved incidents, newest first: the first listed is the second saved, yet it reports index 0. */
  lemma ReportedIndexMismatch()
    ensures var a := FireIncidentData("a", 1, "", "", "", "", "", None, None, None, None, None);
            var b := FireIncidentData("b", 2, "", "", "", "", "", None, None, None, None, None);
            Filtered(NoFilters, [a, b]) == [b, a] &&
            [a, b][0] != Filtered(NoFilters, [a, b])[0]
  {
    var a := FireIncidentData("a", 1, "", "", "", "", "", None, None, None, None, None);
    var b := FireIncidentData("b", 2, "", "", "", "", "", None, None, None, None, None);
    NoFiltersKeepsAll([a, b]);
    var r := Filtered(NoFilters, [a, b]);
    assert |r| == 2;
    assert a in multiset(r) && b in multiset(r);
    assert r[0].timestamp >= r[1].timestamp;
    assert a != b;
    assert r == [b, a] by {
      assert r[0] in multiset(r) && r[1] in multiset(r);
      assert multiset(r) == multiset{a, b};
    }
  }

  /** The index into the saved list of the `k`-th listed incident: what the viewer needs. */
  function SourceIndex(f: FireFilters, incidents: seq<FireIncidentData>, k: nat): (r: nat)
    requires k < |Filtered(f, incidents)|
    ensures r < |incidents| && incidents[r] == Filtered(f, incidents)[k]
  {
    var x := Filtered(f, incidents)[k];
    assert x in multiset(Filtered(f, incidents));
    IndexOf(incidents, x)
  }
}
