/**
 Reading stored incident reports back: every report is checked in full before any
 of it is used, and the answer of a search is in a fixed order.
 */
module EvidenceQuery {
  import opened Values
  import opened CanonicalJson
  import opened KeyOrder
  import opened StableSort
  import opened Timeline

  datatype Completeness = Completeness(complete: bool, checks: map<string, bool>, missing: seq<string>)

  datatype Report = Report(
    profile: string, incidentId: string, componentId: string, startedAt: string, updatedAt: string,
    timeline: seq<Item>, timelineSha256: string, finalStatus: string, commanderRequired: bool, completeness: Completeness)

  /** Texts to be matched are upper-case already; an empty set or None matches everything. */
  datatype Query = Query(
    incidentId: Option<string>, componentId: Option<string>, finalStatuses: set<string>,
    commanderRequired: Option<bool>, complete: Option<bool>, signalTypes: set<string>, sources: set<string>,
    startedFrom: Option<int>, startedBefore: Option<int>, eventFrom: Option<int>, eventBefore: Option<int>)

  const EVERYTHING := Query(None, None, {}, None, None, {}, {}, None, None, None, None)

  const PROFILE := "AIRIV_SENTINEL_EVIDENCE_COMPLETE_S1_V1"

  // ---------------------------------------------------------------- validation

  predicate IsName(j: Json) {
    j.Text? && j.s != ""
  }

  predicate EventOk(host: Host, event: Item, incidentId: string, componentId: string) {
    && IsName(Get(event, "source")) && IsName(Get(event, "source_id")) && IsName(Get(event, "signal_type"))
    && Stamp(host, event).Some?
    && Get(event, "correlation").Object?
    && FieldValue(Get(event, "correlation").fields, "incident_id") == Text(incidentId)
    && FieldValue(Get(event, "correlation").fields, "component_id") == Text(componentId)
  }

  predicate ValidReport(host: Host, r: Report) {
    && r.profile == PROFILE && r.incidentId != "" && r.componentId != ""
    && host.clock(Text(r.startedAt)).Some? && host.clock(Text(r.updatedAt)).Some?
    && Verified(host, r.timeline)
    && r.timelineSha256 == TimelineDigest(host, r.timeline)
    && (forall i :: 0 <= i < |r.timeline| ==> EventOk(host, r.timeline[i], r.incidentId, r.componentId))
    && r.finalStatus != ""
  }

  /** `_validate_report`. */
  method ValidateReport(host: Host, r: Report) returns (ok: bool)
    ensures ok <==> ValidReport(host, r)
  {
    hide Verified, EventOk, TimelineDigest;
    if r.profile != PROFILE || r.incidentId == "" || r.componentId == ""
       || host.clock(Text(r.startedAt)).None? || host.clock(Text(r.updatedAt)).None?
    {
      return false;
    }
    var intact := VerifyTimeline(host, r.timeline);
    if !intact || r.timelineSha256 != TimelineDigest(host, r.timeline) {
      return false;
    }
    for n := 0 to |r.timeline|
      invariant forall i :: 0 <= i < n ==> EventOk(host, r.timeline[i], r.incidentId, r.componentId)
    {
      if !EventOk(host, r.timeline[n], r.incidentId, r.componentId) {
        return false;
      }
    }
    return r.finalStatus != "";
  }

  // ------------------------------------------------------------------ matching

  predicate Within(t: int, from: Option<int>, before: Option<int>) {
    (from.Some? ==> t >= from.value) && (before.Some? ==> t < before.value)
  }

  function UpperText(j: Json): string {
    if j.Text? then Map(Upper, j.s) else ""
  }

  predicate EventMatches(host: Host, event: Item, q: Query) {
    && (q.signalTypes != {} ==> UpperText(Get(event, "signal_type")) in q.signalTypes)
    && (q.sources != {} ==> UpperText(Get(event, "source")) in q.sources)
    && (Stamp(host, event).Some? ==> Within(Stamp(host, event).value, q.eventFrom, q.eventBefore))
  }

  function Started(host: Host, r: Report): int {
    var t := host.clock(Text(r.startedAt));
    if t.Some? then t.value else 0
  }

  predicate ReportMatches(host: Host, r: Report, q: Query) {
    && (q.incidentId.Some? ==> r.incidentId == q.incidentId.value)
    && (q.componentId.Some? ==> r.componentId == q.componentId.value)
    && (q.finalStatuses != {} ==> Map(Upper, r.finalStatus) in q.finalStatuses)
    && (q.commanderRequired.Some? ==> r.commanderRequired == q.commanderRequired.value)
    && (q.complete.Some? ==> r.completeness.complete == q.complete.value)
    && Within(Started(host, r), q.startedFrom, q.startedBefore)
  }

  predicate FiltersEvents(q: Query) {
    q.signalTypes != {} || q.sources != {} || q.eventFrom.Some? || q.eventBefore.Some?
  }

  function MatchedEvents(host: Host, events: seq<Item>, q: Query): seq<Item> {
    if events == [] then []
    else
      var before, last := MatchedEvents(host, events[..|events| - 1], q), events[|events| - 1];
      if EventMatches(host, last, q) then before + [last] else before
  }

  /** A report together with those of its events that matched. */
  datatype Summary = Summary(report: Report, events: seq<Item>)

  predicate Selects(host: Host, r: Report, q: Query) {
    ReportMatches(host, r, q) && (FiltersEvents(q) ==> MatchedEvents(host, r.timeline, q) != [])
  }

  function Selected(host: Host, reports: seq<Report>, q: Query): seq<Summary> {
    if reports == [] then []
    else
      var before, last := Selected(host, reports[..|reports| - 1], q), reports[|reports| - 1];
      if Selects(host, last, q) then before + [Summary(last, MatchedEvents(host, last.timeline, q))] else before
  }

  function ByStart(host: Host): (Summary, Summary) -> bool {
    (x: Summary, y: Summary) =>
      if Started(host, x.report) != Started(host, y.report) then Started(host, x.report) < Started(host, y.report)
      else TextLe(x.report.incidentId, y.report.incidentId)
  }

  predicate AllValid(host: Host, reports: seq<Report>) {
    forall i :: 0 <= i < |reports| ==> ValidReport(host, reports[i])
  }

  /** None where a report is refused: the whole search fails then. */
  function Answer(host: Host, reports: seq<Report>, q: Query): Option<seq<Summary>> {
    if AllValid(host, reports) then Some(Sort(Selected(host, reports, q), ByStart(host))) else None
  }

  /** `search` over the reports that the store returned. */
  method Search(host: Host, reports: seq<Report>, q: Query) returns (r: Option<seq<Summary>>)
    ensures r == Answer(host, reports, q)
  {
    hide ValidReport, ReportMatches, EventMatches;
    var selected: seq<Summary> := [];
    for n := 0 to |reports|
      invariant forall i :: 0 <= i < n ==> ValidReport(host, reports[i])
      invariant selected == Selected(host, reports[..n], q)
    {
      assert reports[..n + 1][..n] == reports[..n];
      var ok := ValidateReport(host, reports[n]);
      if !ok {
        return None;
      }
      var report := reports[n];
      if ReportMatches(host, report, q) {
        var matched: seq<Item> := [];
        for m := 0 to |report.timeline|
          invariant matched == MatchedEvents(host, report.timeline[..m], q)
        {
          assert report.timeline[..m + 1][..m] == report.timeline[..m];
          if EventMatches(host, report.timeline[m], q) {
            matched := matched + [report.timeline[m]];
          }
        }
        assert report.timeline[..|report.timeline|] == report.timeline;
        if !FiltersEvents(q) || matched != [] {
          selected := selected + [Summary(report, matched)];
        }
      }
    }
    assert reports[..|reports|] == reports;
    return Some(Sort(selected, ByStart(host)));
  }

  // ------------------------------------------------------------------ theorems

  lemma ByStartOrders(host: Host)
    ensures TotalPreorder(ByStart(host))
  {
    hide TextLe;
    var le := ByStart(host);
    forall x: Summary, y: Summary ensures le(x, y) || le(y, x) {
      TextLeTotal(x.report.incidentId, y.report.incidentId);
    }
    forall x: Summary, y: Summary, z: Summary | le(x, y) && le(y, z) ensures le(x, z) {
      if Started(host, x.report) == Started(host, y.report) == Started(host, z.report) {
        TextLeTransitive(x.report.incidentId, y.report.incidentId, z.report.incidentId);
      }
    }
  }

  lemma {:induction false} MatchedEventsExactly(host: Host, events: seq<Item>, q: Query, e: Item)
    ensures e in MatchedEvents(host, events, q) <==> e in events && EventMatches(host, e, q)
  {
    hide EventMatches;
    if events != [] {
      MatchedEventsExactly(host, events[..|events| - 1], q, e);
      assert events == events[..|events| - 1] + [events[|events| - 1]];
    }
  }

  lemma {:induction false} SelectedExactly(host: Host, reports: seq<Report>, q: Query, s: Summary)
    ensures s in Selected(host, reports, q) <==>
      s.report in reports && Selects(host, s.report, q) && s.events == MatchedEvents(host, s.report.timeline, q)
  {
    hide Selects, MatchedEvents;
    if reports != [] {
      SelectedExactly(host, reports[..|reports| - 1], q, s);
      assert reports == reports[..|reports| - 1] + [reports[|reports| - 1]];
    }
  }

  /**
   A search answers with exactly the reports that match, each with exactly its
   matching events, ordered by start and incident; one bad report and it fails.
   */
  lemma SearchIsExact(host: Host, reports: seq<Report>, q: Query)
    ensures Answer(host, reports, q).Some? <==> AllValid(host, reports)
    ensures Answer(host, reports, q).Some? ==>
      && Ordered(Answer(host, reports, q).value, ByStart(host))
      && (forall s :: s in Answer(host, reports, q).value <==>
            s.report in reports && Selects(host, s.report, q) && s.events == MatchedEvents(host, s.report.timeline, q))
      && (forall s, e :: s in Answer(host, reports, q).value ==>
            (e in s.events <==> e in s.report.timeline && EventMatches(host, e, q)))
  {
    hide Selects, MatchedEvents, AllValid, ByStart, EventMatches;
    if AllValid(host, reports) {
      var selected := Selected(host, reports, q);
      ByStartOrders(host);
      SortOrders(selected, ByStart(host));
      SortPermutes(selected, ByStart(host));
      forall s ensures s in Sort(selected, ByStart(host)) <==>
        s.report in reports && Selects(host, s.report, q) && s.events == MatchedEvents(host, s.report.timeline, q)
      {
        InPermutation(Sort(selected, ByStart(host)), selected, s);
        SelectedExactly(host, reports, q, s);
      }
      forall s, e | s in Sort(selected, ByStart(host))
        ensures e in s.events <==> e in s.report.timeline && EventMatches(host, e, q)
      {
        MatchedEventsExactly(host, s.report.timeline, q, e);
      }
    }
  }

  lemma {:induction false} EverythingMatches(host: Host, events: seq<Item>)
    ensures MatchedEvents(host, events, EVERYTHING) == events
  {
    if events != [] {
      EverythingMatches(host, events[..|events| - 1]);
      assert EventMatches(host, events[|events| - 1], EVERYTHING);
      assert events == events[..|events| - 1] + [events[|events| - 1]];
    }
  }

  lemma {:induction false} EverythingSelected(host: Host, reports: seq<Report>)
    ensures |Selected(host, reports, EVERYTHING)| == |reports|
    ensures forall i :: 0 <= i < |reports| ==>
      Selected(host, reports, EVERYTHING)[i] == Summary(reports[i], reports[i].timeline)
  {
    hide MatchedEvents;
    if reports != [] {
      var last := reports[|reports| - 1];
      EverythingSelected(host, reports[..|reports| - 1]);
      EverythingMatches(host, last.timeline);
      assert Selects(host, last, EVERYTHING);
    }
  }
}
