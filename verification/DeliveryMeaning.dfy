/** Which rollups are projected, in the fields of the rollup itself. */
module DeliveryMeaning {
  import opened Values
  import opened CanonicalJson
  import opened DeliveryProjection
  import JournalDisk

  predicate Filled(item: Dict, key: string) {
    key in item && item[key].Text? && JournalDisk.Strip(item[key].s) != ""
  }

  predicate Counts(item: Dict, key: string) {
    key in item && item[key].Int? && item[key].n >= 0
  }

  /** One incident summary: these fields and no others, each of its kind. */
  ghost predicate Summary(aware: string -> bool, item: Dict) {
    && item.Keys ==
         {"incident_id", "component_id", "agent_identity", "anomaly_type", "lifecycle_state", "final_status", "started_at",
          "updated_at", "evidence_count", "detection_understanding_count", "diagnostic_action_count",
          "remediation_action_count", "verification_result_count", "commander_decision_count",
          "commander_attention_required"}
    && Filled(item, "incident_id") && Filled(item, "component_id") && Filled(item, "agent_identity")
    && Filled(item, "anomaly_type") && Filled(item, "lifecycle_state") && Filled(item, "final_status")
    && Filled(item, "started_at") && aware(item["started_at"].s)
    && Filled(item, "updated_at") && aware(item["updated_at"].s)
    && Counts(item, "evidence_count") && Counts(item, "detection_understanding_count")
    && Counts(item, "diagnostic_action_count") && Counts(item, "remediation_action_count")
    && Counts(item, "verification_result_count") && Counts(item, "commander_decision_count")
    && item["commander_attention_required"].Bool?
  }

  lemma SummariesAre(aware: string -> bool, item: Dict)
    ensures ValidIncident(aware, item) <==> Summary(aware, item)
  {
    hide JournalDisk.Strip;
    if ValidIncident(aware, item) {
      assert forall k :: k in TEXT_FIELDS ==> FilledText(item[k]);
      assert {"incident_id", "component_id", "agent_identity", "anomaly_type", "lifecycle_state", "final_status"} == TEXT_FIELDS;
    }
  }

  function EvidenceIn(item: Dict): int {
    if Counts(item, "evidence_count") then item["evidence_count"].n else 0
  }

  function EvidenceCounts(items: seq<Dict>): (r: seq<int>)
    ensures |r| == |items| && forall i :: 0 <= i < |r| ==> r[i] == EvidenceIn(items[i])
  {
    seq(|items|, i requires 0 <= i < |items| => EvidenceIn(items[i]))
  }

  function StatusCounts(statuses: seq<(string, int)>): (r: seq<int>)
    ensures |r| == |statuses| && forall i :: 0 <= i < |r| ==> r[i] == statuses[i].1
  {
    seq(|statuses|, i requires 0 <= i < |statuses| => statuses[i].1)
  }

  lemma {:induction false} EvidenceIsTotal(items: seq<Dict>)
    requires forall i :: 0 <= i < |items| ==> Counts(items[i], "evidence_count")
    ensures SumEvidence(items) == Total(EvidenceCounts(items))
  {
    if items != [] {
      var before, last := items[..|items| - 1], items[|items| - 1];
      EvidenceIsTotal(before);
      TotalSnoc(EvidenceCounts(before), EvidenceIn(last));
      assert EvidenceCounts(items) == EvidenceCounts(before) + [EvidenceIn(last)];
    }
  }

  lemma {:induction false} StatusesAreTotal(statuses: seq<(string, int)>)
    ensures SumStatuses(statuses) == Total(StatusCounts(statuses))
  {
    if statuses != [] {
      var before, last := statuses[..|statuses| - 1], statuses[|statuses| - 1];
      StatusesAreTotal(before);
      TotalSnoc(StatusCounts(before), last.1);
      assert StatusCounts(statuses) == StatusCounts(before) + [last.1];
    }
  }

  ghost predicate WantsAttention(item: Dict) {
    "commander_attention_required" in item && item["commander_attention_required"] == Bool(true)
  }

  /** What makes a rollup consistent. */
  ghost predicate Consistent(aware: string -> bool, r: Rollup) {
    && r.schema == "AIRIV_SENTINEL_UNATTENDED_ROLLUP_V1" && aware(r.generatedAt)
    && (r.windowStart.Some? ==> aware(r.windowStart.value)) && (r.windowEnd.Some? ==> aware(r.windowEnd.value))
    && r.incidentCount >= 0 && r.attentionCount >= 0 && r.evidenceCount >= 0
    && (forall i :: 0 <= i < |r.statuses| ==> JournalDisk.Strip(r.statuses[i].0) != "" && r.statuses[i].1 >= 0)
    && Total(StatusCounts(r.statuses)) == r.incidentCount == |r.incidents|
    && (forall i :: 0 <= i < |r.incidents| ==> Summary(aware, r.incidents[i]))
    && (forall i, j :: 0 <= i < j < |r.incidents| ==> r.incidents[i]["incident_id"] != r.incidents[j]["incident_id"])
    && Total(EvidenceCounts(r.incidents)) == r.evidenceCount
    && |r.queue| == r.attentionCount
    // the queue holds each incident that wants attention, once, and nothing else
    && (forall x :: multiset(r.queue)[x] == if x in r.incidents && WantsAttention(x) then 1 else 0)
  }

  /** A rollup is projected exactly if it is consistent. */
  lemma ProjectableIsConsistent(aware: string -> bool, r: Rollup)
    ensures Projectable(aware, r) <==> Consistent(aware, r)
  {
    hide JournalDisk.Strip, ValidIncident, Summary, SumEvidence, SumStatuses, Total, Flagged;
    forall item ensures ValidIncident(aware, item) <==> Summary(aware, item) {
      SummariesAre(aware, item);
    }
    StatusesAreTotal(r.statuses);
    IdsAre(aware, r.incidents);
    if IncidentsOk(aware, r) || Consistent(aware, r) {
      EvidenceIsTotal(r.incidents);
      QueueIs(r);
    }
  }

  lemma IdsAre(aware: string -> bool, items: seq<Dict>)
    requires forall item :: ValidIncident(aware, item) <==> Summary(aware, item)
    ensures AllValid(aware, items) ==> forall i :: 0 <= i < |items| ==>
              Summary(aware, items[i]) && Counts(items[i], "evidence_count") && "incident_id" in items[i]
              && IdOf(items[i]) == items[i]["incident_id"]
    ensures (forall i :: 0 <= i < |items| ==> Summary(aware, items[i])) ==>
              AllValid(aware, items) && forall i :: 0 <= i < |items| ==>
                Counts(items[i], "evidence_count") && "incident_id" in items[i] && IdOf(items[i]) == items[i]["incident_id"]
  {
    hide ValidIncident, JournalDisk.Strip;
  }

  lemma QueueIs(r: Rollup)
    requires UniqueIncidents(r.incidents)
    ensures multiset(r.queue) == multiset(Flagged(r.incidents)) <==>
      forall x :: multiset(r.queue)[x] == if x in r.incidents && WantsAttention(x) then 1 else 0
  {
    hide Flagged;
    FlaggedUnique(r.incidents);
    forall x ensures multiset(Flagged(r.incidents))[x] == if x in r.incidents && WantsAttention(x) then 1 else 0 {
      FlaggedExactly(r.incidents, x);
      AtMostOne(Flagged(r.incidents), x);
    }
    hide WantsAttention, UniqueIncidents;
    if forall x :: multiset(r.queue)[x] == if x in r.incidents && WantsAttention(x) then 1 else 0 {
      assert forall x :: multiset(r.queue)[x] == multiset(Flagged(r.incidents))[x];
    }
  }
}
