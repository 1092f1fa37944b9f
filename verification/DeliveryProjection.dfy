/**
 The projection of an unattended rollup for delivery: counts, summaries and the
 attention queue are checked against each other before anything leaves.
 */
module DeliveryProjection {
  import opened Values
  import opened CanonicalJson
  import JournalDisk

  type Dict = map<string, Json>

  const TEXT_FIELDS: set<string> :=
    {"incident_id", "component_id", "agent_identity", "anomaly_type", "lifecycle_state", "final_status"}

  const TIME_FIELDS: set<string> := {"started_at", "updated_at"}

  const COUNT_FIELDS: set<string> :=
    {"evidence_count", "detection_understanding_count", "diagnostic_action_count", "remediation_action_count",
     "verification_result_count", "commander_decision_count"}

  const INCIDENT_FIELDS: set<string> := TEXT_FIELDS + TIME_FIELDS + COUNT_FIELDS + {"commander_attention_required"}

  const ROLLUP_SCHEMA := "AIRIV_SENTINEL_UNATTENDED_ROLLUP_V1"

  /** `statuses` are the entries of a dictionary. */
  datatype Rollup = Rollup(
    schema: string, generatedAt: string, windowStart: Option<string>, windowEnd: Option<string>,
    incidentCount: int, attentionCount: int, evidenceCount: int,
    statuses: seq<(string, int)>, incidents: seq<Dict>, queue: seq<Dict>)

  datatype Projection = Projection(
    generatedAt: string, windowStart: Option<string>, windowEnd: Option<string>,
    incidentCount: int, attentionCount: int, evidenceCount: int,
    statuses: seq<(string, int)>, incidents: seq<Dict>, queue: seq<Dict>)

  predicate FilledText(j: Json) {
    j.Text? && JournalDisk.Strip(j.s) != ""
  }

  /** `aware` tells the timestamps that parse and carry a time zone. */
  predicate ValidIncident(aware: string -> bool, item: Dict) {
    && item.Keys == INCIDENT_FIELDS
    && (forall k :: k in TEXT_FIELDS ==> FilledText(item[k]))
    && (forall k :: k in TIME_FIELDS ==> FilledText(item[k]) && aware(item[k].s))
    && item["commander_attention_required"].Bool?
    && (forall k :: k in COUNT_FIELDS ==> item[k].Int? && item[k].n >= 0)
  }

  predicate AllValid(aware: string -> bool, items: seq<Dict>) {
    forall i :: 0 <= i < |items| ==> ValidIncident(aware, items[i])
  }

  function IdOf(item: Dict): Json {
    if "incident_id" in item then item["incident_id"] else Null
  }

  predicate IsFlagged(item: Dict) {
    "commander_attention_required" in item && item["commander_attention_required"] == Bool(true)
  }

  function EvidenceOf(item: Dict): int {
    if "evidence_count" in item && item["evidence_count"].Int? then item["evidence_count"].n else 0
  }

  function SumStatuses(statuses: seq<(string, int)>): int {
    if statuses == [] then 0 else SumStatuses(statuses[..|statuses| - 1]) + statuses[|statuses| - 1].1
  }

  function SumEvidence(items: seq<Dict>): int {
    if items == [] then 0 else SumEvidence(items[..|items| - 1]) + EvidenceOf(items[|items| - 1])
  }

  /** The incidents that are flagged for attention, in their order. */
  function Flagged(items: seq<Dict>): seq<Dict> {
    if items == [] then []
    else
      var before, last := Flagged(items[..|items| - 1]), items[|items| - 1];
      if IsFlagged(last) then before + [last] else before
  }

  predicate UniqueIncidents(items: seq<Dict>) {
    forall i, j :: 0 <= i < j < |items| ==> IdOf(items[i]) != IdOf(items[j])
  }

  /** The checks on the rollup that involve no two lists. */
  predicate HeaderOk(aware: string -> bool, r: Rollup) {
    && r.schema == ROLLUP_SCHEMA && aware(r.generatedAt)
    && (r.windowStart.Some? ==> aware(r.windowStart.value)) && (r.windowEnd.Some? ==> aware(r.windowEnd.value))
    && r.incidentCount >= 0 && r.attentionCount >= 0 && r.evidenceCount >= 0
  }

  predicate StatusesOk(r: Rollup) {
    && (forall i :: 0 <= i < |r.statuses| ==> JournalDisk.Strip(r.statuses[i].0) != "" && r.statuses[i].1 >= 0)
    && SumStatuses(r.statuses) == r.incidentCount
  }

  predicate IncidentsOk(aware: string -> bool, r: Rollup) {
    && |r.incidents| == r.incidentCount && AllValid(aware, r.incidents) && UniqueIncidents(r.incidents)
    && SumEvidence(r.incidents) == r.evidenceCount
  }

  /** What a projection promises about the queue. */
  predicate QueueOk(r: Rollup) {
    |r.queue| == r.attentionCount && multiset(r.queue) == multiset(Flagged(r.incidents))
  }

  predicate Projectable(aware: string -> bool, r: Rollup) {
    HeaderOk(aware, r) && StatusesOk(r) && IncidentsOk(aware, r) && QueueOk(r)
  }

  /** What the loop over the queue and the comparison after it check. */
  predicate QueueChecked(aware: string -> bool, r: Rollup) {
    && AllValid(aware, r.queue) && UniqueIncidents(r.queue)
    && (forall i :: 0 <= i < |r.queue| ==> r.queue[i] in r.incidents && IsFlagged(r.queue[i]))
    && (forall i :: 0 <= i < |r.incidents| && IsFlagged(r.incidents[i]) ==>
          exists j :: 0 <= j < |r.queue| && IdOf(r.queue[j]) == IdOf(r.incidents[i]))
  }

  // ------------------------------------------------------ why this is a permutation

  lemma {:induction false} FlaggedExactly(items: seq<Dict>, x: Dict)
    ensures x in Flagged(items) <==> x in items && IsFlagged(x)
  {
    if items != [] {
      FlaggedExactly(items[..|items| - 1], x);
      assert items == items[..|items| - 1] + [items[|items| - 1]];
    }
  }

  lemma {:induction false} FlaggedUnique(items: seq<Dict>)
    requires UniqueIncidents(items)
    ensures UniqueIncidents(Flagged(items))
  {
    if items != [] {
      var before := items[..|items| - 1];
      FlaggedUnique(before);
      forall x | x in Flagged(before) ensures IdOf(x) != IdOf(items[|items| - 1]) {
        FlaggedExactly(before, x);
      }
    }
  }

  lemma {:induction false} AtMostOne(items: seq<Dict>, x: Dict)
    requires UniqueIncidents(items)
    ensures multiset(items)[x] == if x in items then 1 else 0
  {
    if items != [] {
      var before, last := items[..|items| - 1], items[|items| - 1];
      AtMostOne(before, x);
      assert items == before + [last];
      assert multiset(items)[x] == multiset(before)[x] + if x == last then 1 else 0;
    }
  }

  lemma SameElementsSameMultiset(s: seq<Dict>, t: seq<Dict>)
    requires UniqueIncidents(s) && UniqueIncidents(t) && forall x :: x in s <==> x in t
    ensures multiset(s) == multiset(t)
  {
    forall x ensures multiset(s)[x] == multiset(t)[x] {
      AtMostOne(s, x);
      AtMostOne(t, x);
    }
  }

  lemma SameIdSameItem(items: seq<Dict>, x: Dict, y: Dict)
    requires UniqueIncidents(items) && x in items && y in items && IdOf(x) == IdOf(y)
    ensures x == y
  {}

  lemma PermutationIsUnique(s: seq<Dict>, t: seq<Dict>)
    requires multiset(s) == multiset(t) && UniqueIncidents(t)
    ensures UniqueIncidents(s)
  {
    forall i, j | 0 <= i < j < |s| ensures IdOf(s[i]) != IdOf(s[j]) {
      assert s[i] in multiset(s) && s[j] in multiset(s);
      if IdOf(s[i]) == IdOf(s[j]) {
        SameIdSameItem(t, s[i], s[j]);
        AtMostOne(t, s[i]);
        TwiceInMultiset(s, i, j);
      }
    }
  }

  lemma TwiceInMultiset(s: seq<Dict>, i: nat, j: nat)
    requires i < j < |s| && s[i] == s[j]
    ensures multiset(s)[s[i]] >= 2
  {
    assert s == s[..j] + [s[j]] + s[j + 1..];
    assert s[..j] == s[..i] + [s[i]] + s[i + 1..j];
  }

  /** The separate checks amount to: the queue is a permutation of the flagged incidents. */
  lemma ChecksMeanPermutation(aware: string -> bool, r: Rollup)
    requires IncidentsOk(aware, r)
    ensures QueueChecked(aware, r) <==> multiset(r.queue) == multiset(Flagged(r.incidents))
  {
    hide ValidIncident, IsFlagged, SumEvidence;
    var flagged := Flagged(r.incidents);
    FlaggedUnique(r.incidents);
    if QueueChecked(aware, r) {
      forall x ensures x in r.queue <==> x in flagged {
        FlaggedExactly(r.incidents, x);
        if x in flagged {
          var i :| 0 <= i < |r.incidents| && r.incidents[i] == x;
          var j :| 0 <= j < |r.queue| && IdOf(r.queue[j]) == IdOf(x);
          SameIdSameItem(r.incidents, r.queue[j], x);
        }
      }
      SameElementsSameMultiset(r.queue, flagged);
    } else if multiset(r.queue) == multiset(flagged) {
      PermutationChecks(aware, r);
    }
  }

  lemma QueuedIsFlagged(r: Rollup, x: Dict)
    requires multiset(r.queue) == multiset(Flagged(r.incidents))
    ensures x in r.queue <==> x in r.incidents && IsFlagged(x)
  {
    hide IsFlagged;
    FlaggedExactly(r.incidents, x);
    assert x in r.queue <==> x in multiset(r.queue);
    assert x in Flagged(r.incidents) <==> x in multiset(Flagged(r.incidents));
  }

  lemma PermutationChecks(aware: string -> bool, r: Rollup)
    requires IncidentsOk(aware, r) && multiset(r.queue) == multiset(Flagged(r.incidents))
    ensures QueueChecked(aware, r)
  {
    hide ValidIncident, IsFlagged, SumEvidence, Flagged;
    FlaggedUnique(r.incidents);
    PermutationIsUnique(r.queue, Flagged(r.incidents));
    forall i | 0 <= i < |r.queue|
      ensures r.queue[i] in r.incidents && IsFlagged(r.queue[i]) && ValidIncident(aware, r.queue[i])
    {
      QueuedIsFlagged(r, r.queue[i]);
      var k :| 0 <= k < |r.incidents| && r.incidents[k] == r.queue[i];
    }
    forall i | 0 <= i < |r.incidents| && IsFlagged(r.incidents[i])
      ensures exists j :: 0 <= j < |r.queue| && IdOf(r.queue[j]) == IdOf(r.incidents[i])
    {
      QueuedIsFlagged(r, r.incidents[i]);
      var j :| 0 <= j < |r.queue| && r.queue[j] == r.incidents[i];
    }
  }

  /** So in every projection the attention count is the number of flagged incidents. */
  lemma CountsAgree(aware: string -> bool, r: Rollup)
    requires Projectable(aware, r)
    ensures r.attentionCount == |Flagged(r.incidents)|
    ensures r.attentionCount <= r.incidentCount == |r.incidents| == SumStatuses(r.statuses)
    ensures r.evidenceCount == SumEvidence(r.incidents)
  {
    assert |multiset(r.queue)| == |r.queue| && |multiset(Flagged(r.incidents))| == |Flagged(r.incidents)|;
    FlaggedNotLonger(r.incidents);
  }

  lemma {:induction false} FlaggedNotLonger(items: seq<Dict>)
    ensures |Flagged(items)| <= |items|
  {
    if items != [] {
      FlaggedNotLonger(items[..|items| - 1]);
    }
  }

  // ------------------------------------------------------------------ project

  /** The loop over the incidents: ids seen before, and the running sum of the evidence. */
  method CheckIncidents(aware: string -> bool, items: seq<Dict>) returns (r: Option<int>)
    ensures r == if AllValid(aware, items) && UniqueIncidents(items) then Some(SumEvidence(items)) else None
  {
    hide ValidIncident;
    var seen: set<Json> := {};
    var total := 0;
    for n := 0 to |items|
      invariant forall i :: 0 <= i < n ==> ValidIncident(aware, items[i])
      invariant UniqueIncidents(items[..n])
      invariant forall id :: id in seen <==> exists i :: 0 <= i < n && IdOf(items[i]) == id
      invariant total == SumEvidence(items[..n])
    {
      assert items[..n + 1][..n] == items[..n];
      if !ValidIncident(aware, items[n]) {
        return None;
      }
      if IdOf(items[n]) in seen {
        assert !UniqueIncidents(items);
        return None;
      }
      seen := seen + {IdOf(items[n])};
      total := total + EvidenceOf(items[n]);
    }
    assert items[..|items|] == items;
    return Some(total);
  }

  /** The loop over the queue, and the comparison of the two sets of ids after it. */
  method CheckQueue(aware: string -> bool, r: Rollup) returns (ok: bool)
    requires IncidentsOk(aware, r)
    ensures ok <==> QueueChecked(aware, r)
  {
    hide ValidIncident, IsFlagged, IncidentsOk;
    var seen: set<Json> := {};
    for n := 0 to |r.queue|
      invariant forall i :: 0 <= i < n ==> ValidIncident(aware, r.queue[i])
      invariant UniqueIncidents(r.queue[..n])
      invariant forall i :: 0 <= i < n ==> r.queue[i] in r.incidents && IsFlagged(r.queue[i])
      invariant forall id :: id in seen <==> exists i :: 0 <= i < n && IdOf(r.queue[i]) == id
    {
      var item := r.queue[n];
      if !ValidIncident(aware, item) {
        return false;
      }
      if IdOf(item) in seen {
        assert !UniqueIncidents(r.queue);
        return false;
      }
      // the summary of that id must be there and be equal, and it must be flagged
      if item !in r.incidents || !IsFlagged(item) {
        return false;
      }
      seen := seen + {IdOf(item)};
    }
    assert r.queue[..|r.queue|] == r.queue;
    var flaggedIds := set i | 0 <= i < |r.incidents| && IsFlagged(r.incidents[i]) :: IdOf(r.incidents[i]);
    ok := flaggedIds == seen;
    QueueIdsAreFlagged(r, flaggedIds, seen);
  }

  lemma QueueIdsAreFlagged(r: Rollup, flaggedIds: set<Json>, seen: set<Json>)
    requires flaggedIds == set i | 0 <= i < |r.incidents| && IsFlagged(r.incidents[i]) :: IdOf(r.incidents[i])
    requires forall id :: id in seen <==> exists i :: 0 <= i < |r.queue| && IdOf(r.queue[i]) == id
    requires forall i :: 0 <= i < |r.queue| ==> r.queue[i] in r.incidents && IsFlagged(r.queue[i])
    ensures flaggedIds == seen <==>
      forall i :: 0 <= i < |r.incidents| && IsFlagged(r.incidents[i]) ==>
        exists j :: 0 <= j < |r.queue| && IdOf(r.queue[j]) == IdOf(r.incidents[i])
  {
    hide IsFlagged, IdOf;
    forall id | id in seen ensures id in flaggedIds {
      var j :| 0 <= j < |r.queue| && IdOf(r.queue[j]) == id;
      var i :| 0 <= i < |r.incidents| && r.incidents[i] == r.queue[j];
    }
    if forall i :: 0 <= i < |r.incidents| && IsFlagged(r.incidents[i]) ==>
         exists j :: 0 <= j < |r.queue| && IdOf(r.queue[j]) == IdOf(r.incidents[i])
    {
      assert flaggedIds == seen;
    } else {
      var i :| 0 <= i < |r.incidents| && IsFlagged(r.incidents[i])
               && !exists j :: 0 <= j < |r.queue| && IdOf(r.queue[j]) == IdOf(r.incidents[i]);
      assert IdOf(r.incidents[i]) in flaggedIds && IdOf(r.incidents[i]) !in seen;
    }
  }

  /** Only the listed fields of an incident are passed on. */
  function ProjectedIncident(item: Dict): Dict {
    map k | k in item && k in INCIDENT_FIELDS :: item[k]
  }

  function ProjectedIncidents(items: seq<Dict>): (r: seq<Dict>)
    ensures |r| == |items| && forall i :: 0 <= i < |r| ==> r[i] == ProjectedIncident(items[i])
  {
    seq(|items|, i requires 0 <= i < |items| => ProjectedIncident(items[i]))
  }

  lemma ProjectionKeepsIncidents(aware: string -> bool, items: seq<Dict>)
    requires AllValid(aware, items)
    ensures ProjectedIncidents(items) == items
  {
    forall i | 0 <= i < |items| ensures ProjectedIncidents(items)[i] == items[i] {
      assert ValidIncident(aware, items[i]);
    }
  }

  /** The loop over the counts per status. */
  method CheckStatuses(r: Rollup) returns (ok: bool)
    ensures ok <==> StatusesOk(r)
  {
    hide JournalDisk.Strip;
    var sum := 0;
    for n := 0 to |r.statuses|
      invariant forall i :: 0 <= i < n ==> JournalDisk.Strip(r.statuses[i].0) != "" && r.statuses[i].1 >= 0
      invariant sum == SumStatuses(r.statuses[..n])
    {
      assert r.statuses[..n + 1][..n] == r.statuses[..n];
      if JournalDisk.Strip(r.statuses[n].0) == "" || r.statuses[n].1 < 0 {
        return false;
      }
      sum := sum + r.statuses[n].1;
    }
    assert r.statuses[..|r.statuses|] == r.statuses;
    return sum == r.incidentCount;
  }

  /** `project`: a projection is made exactly for the rollups that are consistent, and says what they say. */
  method Project(aware: string -> bool, r: Rollup) returns (p: Option<Projection>)
    ensures p == if Projectable(aware, r)
                 then Some(Projection(r.generatedAt, r.windowStart, r.windowEnd, r.incidentCount, r.attentionCount,
                                      r.evidenceCount, r.statuses, r.incidents, r.queue))
                 else None
  {
    hide AllValid, UniqueIncidents, SumEvidence, Flagged, StatusesOk, HeaderOk, ProjectedIncident;
    if !HeaderOk(aware, r) {
      return None;
    }
    var counted := CheckStatuses(r);
    if !counted || |r.incidents| != r.incidentCount || |r.queue| != r.attentionCount {
      return None;
    }
    var total := CheckIncidents(aware, r.incidents);
    if total.None? || total.value != r.evidenceCount {
      return None;
    }
    ChecksMeanPermutation(aware, r);
    var ok := CheckQueue(aware, r);
    if !ok {
      return None;
    }
    ProjectionKeepsIncidents(aware, r.incidents);
    ProjectionKeepsIncidents(aware, r.queue);
    return Some(Projection(r.generatedAt, r.windowStart, r.windowEnd, r.incidentCount, r.attentionCount, r.evidenceCount,
                           r.statuses, ProjectedIncidents(r.incidents), ProjectedIncidents(r.queue)));
  }
}
