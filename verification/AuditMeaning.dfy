/** What the audit's verifier accepts and what an audit holds, entry by entry. */
module AuditMeaning {
  import opened Values
  import opened CanonicalJson
  import opened KeyOrder
  import opened StableSort
  import opened Timeline
  import opened EvidenceQuery
  import opened EvidenceAudit
  import opened TimelineMeaning
  import opened EvidenceMeaning
  import opened JsonText

  // -------------------------------------------------------------- completeness

  predicate Failed(c: Completeness, name: string) {
    name in c.checks && !c.checks[name]
  }

  /** The missing entries are the failed checks, each once, and complete means that there are none. */
  ghost predicate SoundCompleteness(c: Completeness) {
    && "" !in c.checks && "" !in c.missing
    && (forall name :: multiset(c.missing)[name] == if Failed(c, name) then 1 else 0)
    && (c.complete <==> forall name :: !Failed(c, name))
  }

  lemma {:induction false} OnceEach(s: seq<string>)
    ensures Distinct(s) <==> forall x :: multiset(s)[x] <= 1
    ensures forall x :: x in s <==> multiset(s)[x] >= 1
  {
    if s != [] {
      var before, last := s[..|s| - 1], s[|s| - 1];
      OnceEach(before);
      assert s == before + [last];
      assert forall x :: multiset(s)[x] == multiset(before)[x] + if x == last then 1 else 0;
      if Distinct(s) {
        assert last !in before;
      } else if Distinct(before) {
        assert last in before by {
          var i, j :| 0 <= i < j < |s| && s[i] == s[j];
          assert j == |s| - 1 && before[i] == last;
        }
      }
    }
  }

  lemma TextOrderIsTotal()
    ensures TotalPreorder(TextLe)
  {
    forall x, y ensures TextLe(x, y) || TextLe(y, x) {
      TextLeTotal(x, y);
    }
    forall x, y, z | TextLe(x, y) && TextLe(y, z) ensures TextLe(x, z) {
      TextLeTransitive(x, y, z);
    }
  }

  lemma SortedSame(s: seq<string>, t: seq<string>)
    requires Ordered(t, TextLe)
    ensures Sort(s, TextLe) == t <==> multiset(s) == multiset(t)
  {
    TextOrderIsTotal();
    SortPermutes(s, TextLe);
    SortOrders(s, TextLe);
    if multiset(s) == multiset(t) {
      forall x, y | x in Sort(s, TextLe) && y in Sort(s, TextLe) && Alike(TextLe, x, y) ensures x == y {
        TextLeAntisymmetric(x, y);
      }
      OrderedIsUnique(Sort(s, TextLe), t, TextLe);
    }
  }

  lemma CompletenessIsSound(c: Completeness)
    ensures CompletenessOk(c) <==> SoundCompleteness(c)
  {
    MissingMatches(c);
    NoneFailed(c);
    hide Sort, OrderedKeys, Distinct, FailedChecks, Failed;
  }

  lemma MissingMatches(c: Completeness)
    ensures Distinct(c.missing) && Sort(c.missing, TextLe) == OrderedKeys(FailedChecks(c.checks)) <==>
      forall name :: multiset(c.missing)[name] == if Failed(c, name) then 1 else 0
  {
    var failed := OrderedKeys(FailedChecks(c.checks));
    OrderedKeysAre(FailedChecks(c.checks));
    SortedSame(c.missing, failed);
    OnceEach(c.missing);
    OnceEach(failed);
    FailedAre(c);
    hide Sort, OrderedKeys, Ordered, Distinct, FailedChecks, Failed;
    forall name ensures multiset(failed)[name] == if Failed(c, name) then 1 else 0 {
      assert multiset(failed)[name] <= 1;
      assert name in failed <==> multiset(failed)[name] >= 1;
    }
    if forall name :: multiset(c.missing)[name] == if Failed(c, name) then 1 else 0 {
      assert forall name :: multiset(c.missing)[name] == multiset(failed)[name];
      assert multiset(c.missing) == multiset(failed);
    }
  }

  lemma FailedAre(c: Completeness)
    ensures forall name :: name in FailedChecks(c.checks) <==> Failed(c, name)
  {}

  lemma NoneFailed(c: Completeness)
    ensures FailedChecks(c.checks) == {} <==> forall name :: !Failed(c, name)
  {
    forall name ensures name in FailedChecks(c.checks) <==> Failed(c, name) {}
  }

  // ------------------------------------------------------------------ manifests

  predicate DigestForm(a: Auditor, s: string) {
    |s| == 64 && a.readsAsHex(s) && forall k :: 0 <= k < |s| ==> s[k] !in "ABCDEFGHIJKLMNOPQRSTUVWXYZ"
  }

  lemma DigestFormIs(a: Auditor, s: string)
    ensures IsSha256(a, s) <==> DigestForm(a, s)
  {
    forall c: char ensures 'A' <= c <= 'Z' <==> c in "ABCDEFGHIJKLMNOPQRSTUVWXYZ" {
      Capital(c);
    }
  }

  lemma Capital(c: char)
    ensures 'A' <= c <= 'Z' <==> c in "ABCDEFGHIJKLMNOPQRSTUVWXYZ"
  {
    var first, second := "ABCDEFGHIJKLM", "NOPQRSTUVWXYZ";
    assert "ABCDEFGHIJKLMNOPQRSTUVWXYZ" == first + second;
    assert c in first + second <==> c in first || c in second;
    CapitalOfFirst(c);
    CapitalOfSecond(c);
  }

  lemma CapitalOfFirst(c: char)
    ensures 'A' <= c <= 'M' <==> c in "ABCDEFGHIJKLM"
  {
    var s := "ABCDEFGHIJKLM";
    assert forall k :: 0 <= k < 13 ==> s[k] as int == 65 + k;
    if 'A' <= c <= 'M' {
      assert s[c as int - 65] == c;
    }
  }

  lemma CapitalOfSecond(c: char)
    ensures 'N' <= c <= 'Z' <==> c in "NOPQRSTUVWXYZ"
  {
    var s := "NOPQRSTUVWXYZ";
    assert forall k :: 0 <= k < 13 ==> s[k] as int == 78 + k;
    if 'N' <= c <= 'Z' {
      assert s[c as int - 78] == c;
    }
  }

  ghost predicate SoundEntry(a: Auditor, e: Entry, n: int) {
    && e.sequence == n && e.incidentId != "" && e.componentId != "" && e.eventCount >= 0
    && a.host.clock(Text(e.startedAt)).Some? && a.host.clock(Text(e.updatedAt)).Some?
    && DigestForm(a, e.timelineSha256) && SoundCompleteness(e.completeness)
  }

  ghost predicate Earlier(a: Auditor, d: Entry, e: Entry) {
    var t, u := a.host.clock(Text(d.startedAt)), a.host.clock(Text(e.startedAt));
    t.Some? && u.Some? && (t.value < u.value || (t.value == u.value && NotAfter(d.incidentId, e.incidentId)))
  }

  function EventCounts(entries: seq<Entry>): (r: seq<int>)
    ensures |r| == |entries| && forall i :: 0 <= i < |r| ==> r[i] == entries[i].eventCount
  {
    seq(|entries|, i requires 0 <= i < |entries| => entries[i].eventCount)
  }

  /** The totals are those of the entries. */
  ghost predicate Adds(m: Manifest) {
    var complete := |set i | 0 <= i < |m.entries| && m.entries[i].completeness.complete|;
    var commander := |set i | 0 <= i < |m.entries| && m.entries[i].commanderRequired|;
    && m.totals.reports == |m.entries|
    && m.totals.complete == complete && m.totals.incomplete == |m.entries| - complete
    && m.totals.commander == commander && m.totals.events == Total(EventCounts(m.entries))
    && (m.totals.allComplete <==> forall i :: 0 <= i < |m.entries| ==> m.entries[i].completeness.complete)
  }

  lemma {:induction false} CountIsSize(entries: seq<Entry>, counted: Entry -> bool)
    ensures Count(entries, counted) == |set i | 0 <= i < |entries| && counted(entries[i])|
  {
    var all := set i | 0 <= i < |entries| && counted(entries[i]);
    if entries != [] {
      var before := entries[..|entries| - 1];
      CountIsSize(before, counted);
      var rest := set i | 0 <= i < |before| && counted(before[i]);
      assert all == if counted(entries[|before|]) then rest + {|before|} else rest;
    }
  }

  lemma {:induction false} SumIsTotal(entries: seq<Entry>)
    ensures SumEvents(entries) == Total(EventCounts(entries))
  {
    if entries != [] {
      var before, last := entries[..|entries| - 1], entries[|entries| - 1];
      SumIsTotal(before);
      TotalSnoc(EventCounts(before), last.eventCount);
      assert EventCounts(entries) == EventCounts(before) + [last.eventCount];
    }
  }

  lemma {:induction false} AllCounted(entries: seq<Entry>, counted: Entry -> bool)
    ensures Count(entries, counted) <= |entries|
    ensures Count(entries, counted) == |entries| <==> forall i :: 0 <= i < |entries| ==> counted(entries[i])
  {
    if entries != [] {
      AllCounted(entries[..|entries| - 1], counted);
    }
  }

  lemma RecountAdds(m: Manifest)
    ensures m.totals == Recount(m.entries) <==> Adds(m)
  {
    CountIsSize(m.entries, IsComplete());
    CountIsSize(m.entries, NeedsCommander());
    AllCounted(m.entries, IsComplete());
    SumIsTotal(m.entries);
    assert (set i | 0 <= i < |m.entries| && IsComplete()(m.entries[i]))
        == set i | 0 <= i < |m.entries| && m.entries[i].completeness.complete;
    assert (set i | 0 <= i < |m.entries| && NeedsCommander()(m.entries[i]))
        == set i | 0 <= i < |m.entries| && m.entries[i].commanderRequired;
    hide Count, SumEvents, Total;
  }

  ghost predicate AllSound(a: Auditor, entries: seq<Entry>) {
    forall i :: 0 <= i < |entries| ==> SoundEntry(a, entries[i], i + 1)
  }

  /** Every incident once, earlier ones first, and those of one time in the order of their ids. */
  ghost predicate InOrder(a: Auditor, entries: seq<Entry>) {
    forall i, j :: 0 <= i < j < |entries| ==>
      entries[i].incidentId != entries[j].incidentId && Earlier(a, entries[i], entries[j])
  }

  /** The verifier accepts exactly the manifests that are sound in every entry, in order, and add up. */
  lemma AcceptsExactly(a: Auditor, m: Manifest)
    ensures Accepts(a, m) <==>
      && m.schema == "AIRIV_SENTINEL_INCIDENT_EVIDENCE_INTEGRITY_AUDIT_V1" && m.integrityVerified
      && AllSound(a, m.entries) && InOrder(a, m.entries) && Adds(m)
      && DigestForm(a, m.sha256) && m.sha256 == a.host.digest(ManifestText(m))
  {
    RecountAdds(m);
    DigestFormIs(a, m.sha256);
    ManifestReads(m);
    EntriesAreSound(a, m.entries);
    hide SoundEntry, Adds, Recount, IsSha256, DigestForm, EntryOk, Before, Encode, ManifestFields, ManifestText, InOrder;
    if AllSound(a, m.entries) {
      OrdersAgree(a, m.entries);
    }
    hide AllSound, UniqueIncidents;
  }

  lemma EntriesAreSound(a: Auditor, entries: seq<Entry>)
    ensures (forall i :: 0 <= i < |entries| ==> EntryOk(a, entries[i], i + 1))
       <==> AllSound(a, entries)
  {
    forall i | 0 <= i < |entries| ensures EntryOk(a, entries[i], i + 1) <==> SoundEntry(a, entries[i], i + 1) {
      EntryIsSound(a, entries[i], i + 1);
    }
    hide EntryOk, SoundEntry;
  }

  lemma OrdersAgree(a: Auditor, entries: seq<Entry>)
    requires AllSound(a, entries)
    ensures UniqueIncidents(entries) && (forall i, j :: 0 <= i < j < |entries| ==> Before(a, entries[i], entries[j])) <==>
      InOrder(a, entries)
  {
    forall i, j | 0 <= i < j < |entries| ensures Before(a, entries[i], entries[j]) <==> Earlier(a, entries[i], entries[j]) {
      BeforeIsEarlier(a, entries[i], i + 1, entries[j], j + 1);
    }
    hide SoundEntry, Before, Earlier;
  }

  lemma EntryIsSound(a: Auditor, e: Entry, n: int)
    ensures EntryOk(a, e, n) <==> SoundEntry(a, e, n)
  {
    hide IsSha256, CompletenessOk, SoundCompleteness, DigestForm;
    CompletenessIsSound(e.completeness);
    DigestFormIs(a, e.timelineSha256);
  }

  lemma BeforeIsEarlier(a: Auditor, d: Entry, m: int, e: Entry, n: int)
    requires SoundEntry(a, d, m) && SoundEntry(a, e, n)
    ensures Before(a, d, e) <==> Earlier(a, d, e)
  {
    hide SoundCompleteness, DigestForm, NotAfter, TextLe;
    TextOrder(d.incidentId, e.incidentId);
  }

  // ---------------------------------------------------------------- the text

  function Flag(b: bool): string {
    if b then "true" else "false"
  }

  function ManifestMembers(m: Manifest): seq<(string, string)> {
    [ ("all_evidence_complete", Flag(m.totals.allComplete)), ("commander_required_count", Number(m.totals.commander)),
      ("complete_report_count", Number(m.totals.complete)), ("evidence_event_count", Number(m.totals.events)),
      ("incomplete_report_count", Number(m.totals.incomplete)), ("integrity_verified", Flag(m.integrityVerified)),
      ("report_count", Number(m.totals.reports)), ("reports", Encode(Array(EntriesJson(m.entries)), false)),
      ("schema_version", Quote(m.schema, false)) ]
  }

  /** The text that the digest of a manifest covers: everything but the digest. */
  function ManifestText(m: Manifest): string {
    ['{'] + Members(ManifestMembers(m))
  }

  lemma NamesArePlain()
    ensures Plain("all_evidence_complete") && Plain("commander_required_count") && Plain("complete_report_count")
    ensures Plain("evidence_event_count") && Plain("incomplete_report_count") && Plain("integrity_verified")
    ensures Plain("report_count") && Plain("reports") && Plain("schema_version")
  {}

  /** How one entry stands in that text. */
  function EntryMembers(e: Entry): seq<(string, string)> {
    [ ("commander_required", Flag(e.commanderRequired)), ("component_id", Quote(e.componentId, false)),
      ("evidence_completeness", ['{'] + Members(CompletenessMembers(e.completeness))),
      ("evidence_event_count", Number(e.eventCount)), ("final_incident_status", Quote(e.finalStatus, false)),
      ("incident_id", Quote(e.incidentId, false)), ("sequence", Number(e.sequence)),
      ("started_at", Quote(e.startedAt, false)), ("timeline_sha256", Quote(e.timelineSha256, false)),
      ("updated_at", Quote(e.updatedAt, false)) ]
  }

  function CompletenessMembers(c: Completeness): seq<(string, string)> {
    [ ("checks", Canonical(ChecksJson(c.checks), false)), ("complete", Flag(c.complete)),
      ("missing", Encode(Array(Texts(c.missing)), false)) ]
  }

  lemma EntryNamesArePlain()
    ensures Plain("commander_required") && Plain("component_id") && Plain("evidence_completeness")
    ensures Plain("evidence_event_count") && Plain("final_incident_status") && Plain("incident_id") && Plain("sequence")
    ensures Plain("started_at") && PlainOrDigit("timeline_sha256") && Plain("updated_at")
    ensures Plain("checks") && Plain("complete") && Plain("missing")
  {}

  lemma EntryReads(e: Entry)
    ensures Encode(Object(EntryFields(e)), false) == ['{'] + Members(EntryMembers(e))
  {
    EntryNamesArePlain();
    CompletenessReads(e.completeness);
    hide Plain, PlainOrDigit, Quote, Number, EncodeFields, EncodeItems, Members, CompletenessJson, CompletenessMembers;
    MembersRead(EntryFields(e), EntryMembers(e), false);
  }

  lemma CompletenessReads(c: Completeness)
    ensures Encode(CompletenessJson(c), false) == ['{'] + Members(CompletenessMembers(c))
  {
    EntryNamesArePlain();
    hide Plain, PlainOrDigit, Quote, Number, EncodeFields, EncodeItems, Members, FieldsOf, Texts, ChecksJson;
    MembersRead(
      [ Field("checks", Object(FieldsOf(ChecksJson(c.checks)))), Field("complete", Bool(c.complete)),
        Field("missing", Array(Texts(c.missing))) ],
      CompletenessMembers(c), false);
  }

  lemma ManifestReads(m: Manifest)
    ensures Encode(Object(ManifestFields(m)), false) == ManifestText(m)
  {
    NamesArePlain();
    hide Plain, Quote, Number, EncodeFields, EncodeItems, Members;
    var fields, members := ManifestFields(m), ManifestMembers(m);
    assert fields[7].value == Array(EntriesJson(m.entries));
    hide EntriesJson;
    MembersRead(fields, members, false);
  }

  // ------------------------------------------------------------- what it holds

  /** An audit has one entry for each report of the store, in the order of the search, which copies it and counts its events. */
  lemma AuditCopies(a: Auditor, reports: seq<Report>, i: nat)
    requires AllValid(a.host, reports) && i < |Answer(a.host, reports, EVERYTHING).value|
    ensures var summaries := Answer(a.host, reports, EVERYTHING).value;
            var m := ManifestOf(a, summaries);
            && |m.entries| == |summaries|
            && var (e, r) := (m.entries[i], summaries[i].report);
               && r in reports && e.sequence == i + 1
               && e.incidentId == r.incidentId && e.componentId == r.componentId
               && e.startedAt == r.startedAt && e.updatedAt == r.updatedAt && e.finalStatus == r.finalStatus
               && e.timelineSha256 == r.timelineSha256 && e.eventCount == |r.timeline|
               && e.commanderRequired == r.commanderRequired
               && e.completeness.complete == r.completeness.complete && e.completeness.checks == r.completeness.checks
               && (forall name :: name in e.completeness.missing <==> Failed(r.completeness, name))
               && (forall j, k :: 0 <= j < k < |e.completeness.missing| ==>
                     NotAfter(e.completeness.missing[j], e.completeness.missing[k]))
  {
    var summaries := Answer(a.host, reports, EVERYTHING).value;
    SummariesAreValid(a.host, reports, i);
    SearchIsExact(a.host, reports, EVERYTHING);
    assert summaries[i] in summaries;
    var r := summaries[i].report;
    OrderedKeysAre(FailedChecks(r.completeness.checks));
    forall s, t ensures TextLe(s, t) <==> NotAfter(s, t) {
      TextOrder(s, t);
    }
    hide TextLe, NotAfter, ValidReport, OrderedKeys, Answer, AuditDigest, Recount, Sort, MatchedEvents, AllValid, Selects;
  }

  /** No report of the store is left out. */
  lemma AuditLeavesNothingOut(a: Auditor, reports: seq<Report>, r: Report)
    requires AllValid(a.host, reports) && r in reports
    ensures exists s :: s in Answer(a.host, reports, EVERYTHING).value && s.report == r
  {
    SearchIsExact(a.host, reports, EVERYTHING);
    assert Selects(a.host, r, EVERYTHING);
    hide Answer, MatchedEvents, AllValid;
    assert Summary(r, MatchedEvents(a.host, r.timeline, EVERYTHING)) in Answer(a.host, reports, EVERYTHING).value;
  }
}
