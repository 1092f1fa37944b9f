/**
 The store-wide audit: one manifest over all reports, with totals, an order and a
 digest of its own, and a verifier that needs nothing but the manifest.
 */
module EvidenceAudit {
  import opened Values
  import opened CanonicalJson
  import opened KeyOrder
  import opened StableSort
  import opened Timeline
  import opened EvidenceQuery
  import TimelineTheorems

  /** What the audit asks of texts besides: does `int(text, 16)` accept it? */
  datatype Auditor = Auditor(host: Host, readsAsHex: string -> bool)

  const SCHEMA := "AIRIV_SENTINEL_INCIDENT_EVIDENCE_INTEGRITY_AUDIT_V1"

  datatype Entry = Entry(
    sequence: int, incidentId: string, componentId: string, startedAt: string, updatedAt: string, finalStatus: string,
    timelineSha256: string, eventCount: int, completeness: Completeness, commanderRequired: bool)

  datatype Totals = Totals(reports: int, complete: int, incomplete: int, commander: int, events: int, allComplete: bool)

  datatype Manifest = Manifest(
    schema: string, integrityVerified: bool, totals: Totals, entries: seq<Entry>, sha256: string)

  // -------------------------------------------------------------- completeness

  function OrderedKeys(keys: set<string>): seq<string>
    decreases |keys|
  {
    if keys == {} then [] else [Least(keys)] + OrderedKeys(keys - {Least(keys)})
  }

  function FailedChecks(checks: map<string, bool>): set<string> {
    set name | name in checks && !checks[name]
  }

  predicate Distinct(s: seq<string>) {
    forall i, j :: 0 <= i < j < |s| ==> s[i] != s[j]
  }

  predicate CompletenessOk(c: Completeness) {
    && "" !in c.checks && "" !in c.missing && Distinct(c.missing)
    && Sort(c.missing, TextLe) == OrderedKeys(FailedChecks(c.checks))
    && c.complete == (FailedChecks(c.checks) == {})
  }

  /** `_validate_completeness` returns the failed checks in order. */
  function Normalized(c: Completeness): Completeness {
    c.(missing := OrderedKeys(FailedChecks(c.checks)))
  }

  // -------------------------------------------------------------------- digest

  predicate LowerCase(s: string) {
    forall i :: 0 <= i < |s| ==> !('A' <= s[i] <= 'Z')
  }

  predicate IsSha256(a: Auditor, s: string) {
    |s| == 64 && LowerCase(s) && a.readsAsHex(s)
  }

  /**
   Every digest has the form of one. Results that rest on this do not also ask for
   injectivity, nor the other way round: no function has both on all texts.
   */
  ghost predicate WellFormedDigests(a: Auditor) {
    forall text :: IsSha256(a, a.host.digest(text))
  }

  function ChecksJson(checks: map<string, bool>): map<string, Json> {
    map name | name in checks :: Bool(checks[name])
  }

  function CompletenessJson(c: Completeness): Json {
    Object([ Field("checks", Object(FieldsOf(ChecksJson(c.checks)))), Field("complete", Bool(c.complete)),
             Field("missing", Array(Texts(c.missing))) ])
  }

  function EntryFields(e: Entry): seq<Field> {
    [ Field("commander_required", Bool(e.commanderRequired)), Field("component_id", Text(e.componentId)),
      Field("evidence_completeness", CompletenessJson(e.completeness)), Field("evidence_event_count", Int(e.eventCount)),
      Field("final_incident_status", Text(e.finalStatus)), Field("incident_id", Text(e.incidentId)),
      Field("sequence", Int(e.sequence)), Field("started_at", Text(e.startedAt)),
      Field("timeline_sha256", Text(e.timelineSha256)), Field("updated_at", Text(e.updatedAt)) ]
  }

  function EntriesJson(entries: seq<Entry>): (r: seq<Json>)
    ensures |r| == |entries| && forall i :: 0 <= i < |r| ==> r[i] == Object(EntryFields(entries[i]))
  {
    seq(|entries|, i requires 0 <= i < |entries| => Object(EntryFields(entries[i])))
  }

  function ManifestFields(m: Manifest): seq<Field> {
    [ Field("all_evidence_complete", Bool(m.totals.allComplete)),
      Field("commander_required_count", Int(m.totals.commander)),
      Field("complete_report_count", Int(m.totals.complete)),
      Field("evidence_event_count", Int(m.totals.events)),
      Field("incomplete_report_count", Int(m.totals.incomplete)),
      Field("integrity_verified", Bool(m.integrityVerified)),
      Field("report_count", Int(m.totals.reports)),
      Field("reports", Array(EntriesJson(m.entries))),
      Field("schema_version", Text(m.schema)) ]
  }

  function AuditDigest(a: Auditor, m: Manifest): string {
    a.host.digest(Encode(Object(ManifestFields(m)), false))
  }

  // ------------------------------------------------------------------ recounts

  function Count(entries: seq<Entry>, counted: Entry -> bool): nat {
    if entries == [] then 0
    else Count(entries[..|entries| - 1], counted) + if counted(entries[|entries| - 1]) then 1 else 0
  }

  function SumEvents(entries: seq<Entry>): int {
    if entries == [] then 0 else SumEvents(entries[..|entries| - 1]) + entries[|entries| - 1].eventCount
  }

  function IsComplete(): Entry -> bool { (e: Entry) => e.completeness.complete }

  function NeedsCommander(): Entry -> bool { (e: Entry) => e.commanderRequired }

  function Recount(entries: seq<Entry>): Totals {
    var complete := Count(entries, IsComplete());
    Totals(|entries|, complete, |entries| - complete, Count(entries, NeedsCommander()), SumEvents(entries),
           |entries| == complete)
  }

  // ------------------------------------------------------------------ verifier

  predicate EntryOk(a: Auditor, e: Entry, sequence: int) {
    && e.sequence == sequence && e.incidentId != "" && e.componentId != ""
    && a.host.clock(Text(e.startedAt)).Some? && a.host.clock(Text(e.updatedAt)).Some?
    && IsSha256(a, e.timelineSha256) && e.eventCount >= 0 && CompletenessOk(e.completeness)
  }

  function StartOf(a: Auditor, e: Entry): int {
    var t := a.host.clock(Text(e.startedAt));
    if t.Some? then t.value else 0
  }

  /** Entries in the order of their start, then of their incident. */
  predicate Before(a: Auditor, d: Entry, e: Entry) {
    if StartOf(a, d) != StartOf(a, e) then StartOf(a, d) < StartOf(a, e) else TextLe(d.incidentId, e.incidentId)
  }

  predicate UniqueIncidents(entries: seq<Entry>) {
    forall i, j :: 0 <= i < j < |entries| ==> entries[i].incidentId != entries[j].incidentId
  }

  /** What the verifier accepts, stated on the manifest as a whole. */
  predicate Accepts(a: Auditor, m: Manifest) {
    && IsSha256(a, m.sha256) && m.schema == SCHEMA && m.integrityVerified
    && (forall i :: 0 <= i < |m.entries| ==> EntryOk(a, m.entries[i], i + 1))
    && UniqueIncidents(m.entries)
    && (forall i, j :: 0 <= i < j < |m.entries| ==> Before(a, m.entries[i], m.entries[j]))
    && m.totals == Recount(m.entries)
    && m.sha256 == AuditDigest(a, m)
  }

  /** The pass of the verifier over the entries: their totals, or None where one is refused or repeats an incident. */
  method PassOver(a: Auditor, entries: seq<Entry>) returns (r: Option<Totals>)
    ensures r ==
      if (forall i :: 0 <= i < |entries| ==> EntryOk(a, entries[i], i + 1)) && UniqueIncidents(entries) then Some(Recount(entries))
      else None
  {
    hide EntryOk, Count, SumEvents;
    var seen: set<string> := {};
    var complete, commander, events := 0, 0, 0;
    EmptyCounts();
    for n := 0 to |entries|
      invariant forall i :: 0 <= i < n ==> EntryOk(a, entries[i], i + 1)
      invariant forall i, j :: 0 <= i < j < n ==> entries[i].incidentId != entries[j].incidentId
      invariant forall id :: id in seen <==> exists i :: 0 <= i < n && entries[i].incidentId == id
      invariant complete == Count(entries[..n], IsComplete())
      invariant commander == Count(entries[..n], NeedsCommander())
      invariant events == SumEvents(entries[..n])
    {
      var e := entries[n];
      if !EntryOk(a, e, n + 1) {
        return None;
      }
      if e.incidentId in seen {
        return None;
      }
      RecountStep(entries[..n], e);
      assert entries[..n + 1] == entries[..n] + [e];
      seen := seen + {e.incidentId};
      complete := complete + if e.completeness.complete then 1 else 0;
      commander := commander + if e.commanderRequired then 1 else 0;
      events := events + e.eventCount;
    }
    assert entries[..|entries|] == entries;
    var incomplete := |entries| - complete;
    return Some(Totals(|entries|, complete, incomplete, commander, events, incomplete == 0));
  }

  /** `verify_integrity_audit`. */
  method VerifyAudit(a: Auditor, m: Manifest) returns (ok: bool)
    ensures ok <==> Accepts(a, m)
  {
    hide IsSha256, EntryOk, AuditDigest, Before, Recount;
    if !IsSha256(a, m.sha256) || m.schema != SCHEMA || !m.integrityVerified {
      return false;
    }
    var totals := PassOver(a, m.entries);
    if totals.None? || exists i, j :: 0 <= i < j < |m.entries| && !Before(a, m.entries[i], m.entries[j]) {
      return false;
    }
    ok := m.totals == totals.value && m.sha256 == AuditDigest(a, m);
  }

  // ------------------------------------------------------------------- auditor

  predicate SummaryOk(a: Auditor, s: Summary) {
    CompletenessOk(s.report.completeness) && IsSha256(a, s.report.timelineSha256)
  }

  function EntryOf(s: Summary, sequence: int): Entry {
    Entry(sequence, s.report.incidentId, s.report.componentId, s.report.startedAt, s.report.updatedAt,
          s.report.finalStatus, s.report.timelineSha256, |s.events|, Normalized(s.report.completeness),
          s.report.commanderRequired)
  }

  function EntriesOf(summaries: seq<Summary>): (r: seq<Entry>)
    ensures |r| == |summaries| && forall i :: 0 <= i < |r| ==> r[i] == EntryOf(summaries[i], i + 1)
  {
    seq(|summaries|, i requires 0 <= i < |summaries| => EntryOf(summaries[i], i + 1))
  }

  function Sealed(a: Auditor, m: Manifest): Manifest {
    m.(sha256 := AuditDigest(a, m))
  }

  /** The manifest of an audit before the last guard. */
  function ManifestOf(a: Auditor, summaries: seq<Summary>): Manifest {
    Sealed(a, Manifest(SCHEMA, true, Recount(EntriesOf(summaries)), EntriesOf(summaries), ""))
  }

  predicate Auditable(a: Auditor, summaries: seq<Summary>) {
    && (forall i :: 0 <= i < |summaries| ==> SummaryOk(a, summaries[i]))
    && (forall i, j :: 0 <= i < j < |summaries| ==> summaries[i].report.incidentId != summaries[j].report.incidentId)
  }

  datatype Outcome = Audited(manifest: Manifest) | Refused | GuardTripped

  lemma RecountStep(entries: seq<Entry>, e: Entry)
    ensures Count(entries + [e], IsComplete()) == Count(entries, IsComplete()) + if e.completeness.complete then 1 else 0
    ensures Count(entries + [e], NeedsCommander()) == Count(entries, NeedsCommander()) + if e.commanderRequired then 1 else 0
    ensures SumEvents(entries + [e]) == SumEvents(entries) + e.eventCount
  {
    assert (entries + [e])[..|entries|] == entries;
  }

  /** The pass over the answer of the search, with its counters and its set of seen incidents. */
  method Compile(a: Auditor, summaries: seq<Summary>) returns (r: Option<Manifest>)
    ensures r == if Auditable(a, summaries) then Some(ManifestOf(a, summaries)) else None
  {
    hide SummaryOk, AuditDigest, EntryOf, Count, SumEvents;
    var seen: set<string> := {};
    var entries: seq<Entry> := [];
    var complete, commander, events := 0, 0, 0;
    assert complete == Count(entries, IsComplete()) by { EmptyCounts(); }
    assert commander == Count(entries, NeedsCommander()) && events == SumEvents(entries) by { EmptyCounts(); }
    for n := 0 to |summaries|
      invariant |entries| == n && forall i :: 0 <= i < n ==> entries[i] == EntryOf(summaries[i], i + 1)
      invariant forall i :: 0 <= i < n ==> SummaryOk(a, summaries[i])
      invariant forall i, j :: 0 <= i < j < n ==> summaries[i].report.incidentId != summaries[j].report.incidentId
      invariant forall id :: id in seen <==> exists i :: 0 <= i < n && summaries[i].report.incidentId == id
      invariant complete == Count(entries, IsComplete())
      invariant commander == Count(entries, NeedsCommander())
      invariant events == SumEvents(entries)
    {
      var s := summaries[n];
      if s.report.incidentId in seen || !SummaryOk(a, s) {
        return None;
      }
      seen := seen + {s.report.incidentId};
      var entry := EntryOf(s, n + 1);
      RecountStep(entries, entry);
      entries := entries + [entry];
      complete := complete + if entry.completeness.complete then 1 else 0;
      commander := commander + if entry.commanderRequired then 1 else 0;
      events := events + entry.eventCount;
    }
    assert entries == EntriesOf(summaries);
    var incomplete := |entries| - complete;
    return Some(Sealed(a, Manifest(SCHEMA, true,
      Totals(|entries|, complete, incomplete, commander, events, incomplete == 0), entries, "")));
  }

  lemma EmptyCounts()
    ensures Count([], IsComplete()) == Count([], NeedsCommander()) == SumEvents([]) == 0
  {}

  /** `run`: search, one pass over the answer, then the verifier as a guard. */
  method Run(a: Auditor, reports: seq<Report>) returns (r: Outcome)
    requires WellFormedDigests(a)
    ensures r.Audited? <==> AllValid(a.host, reports) && Auditable(a, Answer(a.host, reports, EVERYTHING).value)
    ensures r.Audited? ==> r.manifest == ManifestOf(a, Answer(a.host, reports, EVERYTHING).value) && Accepts(a, r.manifest)
    ensures !r.GuardTripped?
  {
    hide AllValid, Auditable, Accepts, WellFormedDigests, Selected, Sort, ManifestOf;
    var answer := Search(a.host, reports, EVERYTHING);
    if answer.None? {
      return Refused;
    }
    var compiled := Compile(a, answer.value);
    if compiled.None? {
      return Refused;
    }
    ManifestIsAccepted(a, reports);
    var ok := VerifyAudit(a, compiled.value);
    return if ok then Audited(compiled.value) else GuardTripped;
  }

  // ------------------------------------------------------------------ theorems

  lemma {:induction false} OrderedKeysAre(keys: set<string>)
    ensures Ordered(OrderedKeys(keys), TextLe) && Distinct(OrderedKeys(keys))
    ensures forall k :: k in OrderedKeys(keys) <==> k in keys
    decreases |keys|
  {
    if keys != {} {
      OrderedKeysAre(keys - {Least(keys)});
      var rest := OrderedKeys(keys - {Least(keys)});
      forall i | 0 <= i < |rest| ensures TextLe(Least(keys), rest[i]) && rest[i] != Least(keys) {
        assert rest[i] in rest;
      }
    }
  }

  /** What was checked and normalized once passes the same check again. */
  lemma NormalizedIsOk(c: Completeness)
    requires CompletenessOk(c)
    ensures CompletenessOk(Normalized(c)) && Normalized(Normalized(c)) == Normalized(c)
  {
    var failed := FailedChecks(c.checks);
    OrderedKeysAre(failed);
    SortKeepsOrdered(OrderedKeys(failed), TextLe);
  }

  lemma SummariesAreValid(host: Host, reports: seq<Report>, i: nat)
    requires AllValid(host, reports) && i < |Answer(host, reports, EVERYTHING).value|
    ensures ValidReport(host, Answer(host, reports, EVERYTHING).value[i].report)
    ensures var s := Answer(host, reports, EVERYTHING).value[i]; s.events == s.report.timeline
  {
    hide ValidReport, MatchedEvents, Selects, Selected, Sort;
    var s := Answer(host, reports, EVERYTHING).value[i];
    SearchIsExact(host, reports, EVERYTHING);
    assert s in Answer(host, reports, EVERYTHING).value;
    EverythingMatches(host, s.report.timeline);
  }

  lemma EntryIsOk(a: Auditor, s: Summary, n: nat)
    requires ValidReport(a.host, s.report) && SummaryOk(a, s)
    ensures EntryOk(a, EntryOf(s, n), n)
  {
    hide Verified, EventOk, TimelineDigest, IsSha256, CompletenessOk;
    NormalizedIsOk(s.report.completeness);
  }

  lemma EntriesAreOk(a: Auditor, reports: seq<Report>, i: nat)
    requires AllValid(a.host, reports) && i < |Answer(a.host, reports, EVERYTHING).value|
    requires SummaryOk(a, Answer(a.host, reports, EVERYTHING).value[i])
    ensures EntryOk(a, EntriesOf(Answer(a.host, reports, EVERYTHING).value)[i], i + 1)
  {
    hide ValidReport, EntryOk, SummaryOk, EntryOf, Selected, Sort, AllValid;
    SummariesAreValid(a.host, reports, i);
    EntryIsOk(a, Answer(a.host, reports, EVERYTHING).value[i], i + 1);
  }

  lemma EntriesAreOrdered(a: Auditor, summaries: seq<Summary>)
    requires Ordered(summaries, ByStart(a.host))
    ensures var entries := EntriesOf(summaries);
            forall i, j :: 0 <= i < j < |entries| ==> Before(a, entries[i], entries[j])
  {
    hide EntryOf, TextLe;
    forall i, j | 0 <= i < j < |summaries| ensures Before(a, EntriesOf(summaries)[i], EntriesOf(summaries)[j]) {
      EntryKeeps(summaries[i], i + 1);
      EntryKeeps(summaries[j], j + 1);
      assert ByStart(a.host)(summaries[i], summaries[j]);
    }
  }

  lemma EntriesAreUnique(a: Auditor, summaries: seq<Summary>)
    requires Auditable(a, summaries)
    ensures UniqueIncidents(EntriesOf(summaries))
  {
    hide EntryOf, SummaryOk;
    forall i, j | 0 <= i < j < |summaries|
      ensures EntriesOf(summaries)[i].incidentId != EntriesOf(summaries)[j].incidentId
    {
      EntryKeeps(summaries[i], i + 1);
      EntryKeeps(summaries[j], j + 1);
    }
  }

  /**
   The last guard of the audit can never refuse: whenever the search succeeds and
   the checks of the pass hold, the standalone verifier accepts the manifest.
   */
  lemma ManifestIsAccepted(a: Auditor, reports: seq<Report>)
    requires WellFormedDigests(a) && AllValid(a.host, reports)
    ensures var summaries := Answer(a.host, reports, EVERYTHING).value;
            Auditable(a, summaries) ==> Accepts(a, ManifestOf(a, summaries))
  {
    hide IsSha256, EntryOk, AuditDigest, SummaryOk, EntriesOf, AllValid, Selected, Sort, Before, UniqueIncidents, Ordered,
         ByStart;
    var summaries := Answer(a.host, reports, EVERYTHING).value;
    if Auditable(a, summaries) {
      SearchIsExact(a.host, reports, EVERYTHING);
      forall i | 0 <= i < |summaries| ensures EntryOk(a, EntriesOf(summaries)[i], i + 1) {
        EntriesAreOk(a, reports, i);
      }
      EntriesAreOrdered(a, summaries);
      EntriesAreUnique(a, summaries);
      DigestIsSha256(a, Manifest(SCHEMA, true, Recount(EntriesOf(summaries)), EntriesOf(summaries), ""));
    }
  }

  lemma EntryKeeps(s: Summary, n: nat)
    ensures EntryOf(s, n).incidentId == s.report.incidentId && EntryOf(s, n).startedAt == s.report.startedAt
    ensures EntryOf(s, n).timelineSha256 == s.report.timelineSha256
  {}

  lemma DigestIsSha256(a: Auditor, m: Manifest)
    requires WellFormedDigests(a)
    ensures IsSha256(a, AuditDigest(a, m)) && AuditDigest(a, m.(sha256 := AuditDigest(a, m))) == AuditDigest(a, m)
  {
    hide Encode, IsSha256;
    assert ManifestFields(m.(sha256 := AuditDigest(a, m))) == ManifestFields(m);
  }

  // --------------------------------------------- one digest for all evidence

  lemma SameEntries(u: seq<Entry>, v: seq<Entry>)
    requires EntriesJson(u) == EntriesJson(v)
    ensures |u| == |v|
    ensures forall i :: 0 <= i < |u| ==> u[i].incidentId == v[i].incidentId && u[i].timelineSha256 == v[i].timelineSha256
  {
    hide CompletenessJson;
    forall i | 0 <= i < |u| ensures u[i].incidentId == v[i].incidentId && u[i].timelineSha256 == v[i].timelineSha256 {
      assert EntriesJson(u)[i] == EntriesJson(v)[i];
      var f, g := EntryFields(u[i]), EntryFields(v[i]);
      assert f[5].value == g[5].value && f[8].value == g[8].value;
    }
  }

  lemma SameDigestSameEntries(a: Auditor, m: Manifest, n: Manifest)
    requires Injective(a.host.digest) && AuditDigest(a, m) == AuditDigest(a, n)
    ensures EntriesJson(m.entries) == EntriesJson(n.entries)
  {
    hide Encode, EntriesJson;
    EncodeInjective(Object(ManifestFields(m)), Object(ManifestFields(n)), false);
    assert ManifestFields(m)[7].value == ManifestFields(n)[7].value;
  }

  /**
   Two stores whose audits carry the same digest hold, incident for incident, the
   same evidence: equal timelines down to every event.
   */
  lemma EqualAuditsMeanEqualEvidence(a: Auditor, left: seq<Report>, right: seq<Report>)
    requires Injective(a.host.digest) && AllValid(a.host, left) && AllValid(a.host, right)
    requires var u, v := Answer(a.host, left, EVERYTHING).value, Answer(a.host, right, EVERYTHING).value;
             ManifestOf(a, u).sha256 == ManifestOf(a, v).sha256
    ensures var u, v := Answer(a.host, left, EVERYTHING).value, Answer(a.host, right, EVERYTHING).value;
            |u| == |v| && forall i :: 0 <= i < |u| ==>
              u[i].report.incidentId == v[i].report.incidentId && u[i].report.timeline == v[i].report.timeline
  {
    hide AuditDigest, Selected, Sort, AllValid, EntryOf, Recount, EntriesJson, ValidReport;
    var u, v := Answer(a.host, left, EVERYTHING).value, Answer(a.host, right, EVERYTHING).value;
    var m := Manifest(SCHEMA, true, Recount(EntriesOf(u)), EntriesOf(u), "");
    var n := Manifest(SCHEMA, true, Recount(EntriesOf(v)), EntriesOf(v), "");
    SameDigestSameEntries(a, m, n);
    SameEntries(EntriesOf(u), EntriesOf(v));
    forall i | 0 <= i < |u|
      ensures u[i].report.incidentId == v[i].report.incidentId && u[i].report.timeline == v[i].report.timeline
    {
      EntryKeeps(u[i], i + 1);
      EntryKeeps(v[i], i + 1);
      SummariesAreValid(a.host, left, i);
      SummariesAreValid(a.host, right, i);
      SameTimelines(a.host, u[i].report, v[i].report);
    }
  }

  lemma SameTimelines(host: Host, r: Report, s: Report)
    requires Injective(host.digest) && ValidReport(host, r) && ValidReport(host, s) && r.timelineSha256 == s.timelineSha256
    ensures r.timeline == s.timeline
  {
    hide Verified, TimelineDigest, EventOk;
    TimelineTheorems.DigestTellsTheTimeline(host, r.timeline, s.timeline);
  }

}
