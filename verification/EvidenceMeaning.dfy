/** What searches answer, in the fields of reports, events and queries. */
module EvidenceMeaning {
  import opened Values
  import opened CanonicalJson
  import opened KeyOrder
  import opened StableSort
  import opened Timeline
  import opened EvidenceQuery
  import opened TimelineMeaning

  // ---------------------------------------------------------------- upper case

  ghost predicate InUpper(s: string, wanted: set<string>) {
    exists u :: UpperCaseOf(s, u) && u in wanted
  }

  lemma InUpperIs(s: string, wanted: set<string>)
    ensures InUpper(s, wanted) <==> Map(Upper, s) in wanted
  {
    UppersAre(s, Map(Upper, s));
    forall u ensures UpperCaseOf(s, u) <==> u == Map(Upper, s) {
      UppersAre(s, u);
    }
  }

  // -------------------------------------------------------------- what is valid

  /** The event carries its number, the digest of the one before, and its own. */
  ghost predicate Chained(host: Host, t: seq<Item>, i: nat)
    requires i < |t|
  {
    && "sequence" in t[i] && (t[i]["sequence"] == Int(i + 1) || (i == 0 && t[i]["sequence"] == Bool(true)))
    && "event_sha256" in t[i] && t[i]["event_sha256"] == Text(host.digest(Canonical(t[i] - {"event_sha256"}, false)))
    && (i == 0 ==> "previous_sha256" !in t[i] || t[i]["previous_sha256"] == Null)
    && (i > 0 ==> "previous_sha256" in t[i] && "event_sha256" in t[i - 1] && t[i]["previous_sha256"] == t[i - 1]["event_sha256"])
  }

  /** Where digests are never empty, a timeline is intact exactly if every event is chained to the one before. */
  lemma IntactMeansChained(host: Host, t: seq<Item>)
    requires forall text :: host.digest(text) != ""
    ensures Verified(host, t) <==> forall i :: 0 <= i < |t| ==> Chained(host, t, i)
  {
    hide Canonical;
    forall i | 0 <= i < |t| ensures i == 0 ==> (Link(host, t, i) <==> Chained(host, t, i))
      ensures i > 0 && Get(t[i - 1], "event_sha256") == Text(DigestOf(host, t[i - 1])) ==>
        (Link(host, t, i) <==> Chained(host, t, i))
      ensures Link(host, t, i) || Chained(host, t, i) ==> Get(t[i], "event_sha256") == Text(DigestOf(host, t[i]))
    {
      LinkIsChained(host, t, i);
    }
    hide Link, Chained, DigestOf, Get;
    AllOrNone(host, t, |t|);
  }

  lemma {:induction false} AllOrNone(host: Host, t: seq<Item>, n: nat)
    requires n <= |t|
    requires forall i :: 0 <= i < |t| ==>
      && (i == 0 ==> (Link(host, t, i) <==> Chained(host, t, i)))
      && (i > 0 && Get(t[i - 1], "event_sha256") == Text(DigestOf(host, t[i - 1])) ==> (Link(host, t, i) <==> Chained(host, t, i)))
      && (Link(host, t, i) || Chained(host, t, i) ==> Get(t[i], "event_sha256") == Text(DigestOf(host, t[i])))
    ensures (forall i :: 0 <= i < n ==> Link(host, t, i)) <==> (forall i :: 0 <= i < n ==> Chained(host, t, i))
  {
    hide Link, Chained, DigestOf, Get;
    if n > 0 {
      AllOrNone(host, t, n - 1);
      if forall i :: 0 <= i < n - 1 ==> Link(host, t, i) {
        if n > 1 {
          assert Link(host, t, n - 2);
        }
        assert Link(host, t, n - 1) <==> Chained(host, t, n - 1);
      }
    }
  }

  lemma LinkIsChained(host: Host, t: seq<Item>, i: nat)
    requires i < |t| && forall text :: host.digest(text) != ""
    ensures i == 0 ==> (Link(host, t, i) <==> Chained(host, t, i))
    ensures i > 0 && Get(t[i - 1], "event_sha256") == Text(DigestOf(host, t[i - 1])) ==>
              (Link(host, t, i) <==> Chained(host, t, i))
    ensures Link(host, t, i) || Chained(host, t, i) ==> Get(t[i], "event_sha256") == Text(DigestOf(host, t[i]))
  {
    hide Canonical;
    if i > 0 {
      assert t[..i][|t[..i]| - 1] == t[i - 1];
    }
  }

  ghost predicate Names(event: Item, key: string) {
    key in event && event[key].Text? && event[key].s != ""
  }

  /** The first field of that key says this text. */
  ghost predicate FieldSays(fields: seq<Field>, key: string, text: string) {
    exists k :: 0 <= k < |fields| && fields[k] == Field(key, Text(text)) && forall j :: 0 <= j < k ==> fields[j].key != key
  }

  lemma {:induction false} FieldReads(fields: seq<Field>, key: string, text: string)
    ensures FieldValue(fields, key) == Text(text) <==> FieldSays(fields, key, text)
  {
    if fields != [] && fields[0].key != key {
      FieldReads(fields[1..], key, text);
      if FieldSays(fields[1..], key, text) {
        var k :| 0 <= k < |fields[1..]| && fields[1..][k] == Field(key, Text(text))
                 && forall j :: 0 <= j < k ==> fields[1..][j].key != key;
        assert fields[k + 1] == Field(key, Text(text));
        forall j | 0 <= j < k + 1 ensures fields[j].key != key {
          assert j > 0 ==> fields[1..][j - 1] == fields[j];
        }
      }
      if FieldSays(fields, key, text) {
        var k :| 0 <= k < |fields| && fields[k] == Field(key, Text(text)) && forall j :: 0 <= j < k ==> fields[j].key != key;
        assert fields[1..][k - 1] == Field(key, Text(text));
      }
    } else if fields != [] {
      if fields[0] == Field(key, Text(text)) {
        assert FieldSays(fields, key, text);
      }
    }
  }

  ghost predicate SoundEvent(host: Host, event: Item, r: Report) {
    && Names(event, "source") && Names(event, "source_id") && Names(event, "signal_type")
    && "timestamp" in event && host.clock(event["timestamp"]).Some?
    && "correlation" in event && event["correlation"].Object?
    && FieldSays(event["correlation"].fields, "incident_id", r.incidentId)
    && FieldSays(event["correlation"].fields, "component_id", r.componentId)
  }

  ghost predicate SoundReport(host: Host, r: Report) {
    && r.profile == "AIRIV_SENTINEL_EVIDENCE_COMPLETE_S1_V1"
    && r.incidentId != "" && r.componentId != "" && r.finalStatus != ""
    && host.clock(Text(r.startedAt)).Some? && host.clock(Text(r.updatedAt)).Some?
    && (forall i :: 0 <= i < |r.timeline| ==> Chained(host, r.timeline, i) && SoundEvent(host, r.timeline[i], r))
    && (r.timeline == [] ==> r.timelineSha256 == host.digest(""))
    && (r.timeline != [] ==>
          var last := r.timeline[|r.timeline| - 1];
          "event_sha256" in last && last["event_sha256"] == Text(r.timelineSha256))
  }

  lemma EventsAreSound(host: Host, event: Item, r: Report)
    ensures EventOk(host, event, r.incidentId, r.componentId) <==> SoundEvent(host, event, r)
  {
    if "correlation" in event && event["correlation"].Object? {
      FieldReads(event["correlation"].fields, "incident_id", r.incidentId);
      FieldReads(event["correlation"].fields, "component_id", r.componentId);
    }
    hide FieldSays, FieldValue;
  }

  /** A report is used exactly if it is sound from its profile down to the last event. */
  lemma ValidMeansSound(host: Host, r: Report)
    requires forall text :: host.digest(text) != ""
    ensures ValidReport(host, r) <==> SoundReport(host, r)
  {
    IntactMeansChained(host, r.timeline);
    forall i | 0 <= i < |r.timeline|
      ensures EventOk(host, r.timeline[i], r.incidentId, r.componentId) <==> SoundEvent(host, r.timeline[i], r)
    {
      EventsAreSound(host, r.timeline[i], r);
    }
    LastDigest(host, r);
    hide EventOk, SoundEvent, Chained, TimelineDigest, Verified;
  }

  lemma LastDigest(host: Host, r: Report)
    ensures r.timeline == [] ==> TimelineDigest(host, r.timeline) == host.digest("")
    ensures r.timeline != [] && Chained(host, r.timeline, |r.timeline| - 1) ==>
      var last := r.timeline[|r.timeline| - 1];
      "event_sha256" in last
      && (r.timelineSha256 == TimelineDigest(host, r.timeline) <==> last["event_sha256"] == Text(r.timelineSha256))
  {
    hide Canonical;
  }

  // ------------------------------------------------------------- what is matched

  ghost predicate InTime(t: int, from: Option<int>, before: Option<int>) {
    && (match from case Some(x) => x <= t case None => true)
    && (match before case Some(y) => t < y case None => true)
  }

  /** An event of a sound report matches a query. */
  ghost predicate Wanted(host: Host, event: Item, q: Query) {
    && "signal_type" in event && event["signal_type"].Text? && "source" in event && event["source"].Text?
    && "timestamp" in event && host.clock(event["timestamp"]).Some?
    && (q.signalTypes == {} || InUpper(event["signal_type"].s, q.signalTypes))
    && (q.sources == {} || InUpper(event["source"].s, q.sources))
    && InTime(host.clock(event["timestamp"]).value, q.eventFrom, q.eventBefore)
  }

  ghost predicate NarrowsEvents(q: Query) {
    q.signalTypes != {} || q.sources != {} || q.eventFrom != None || q.eventBefore != None
  }

  ghost predicate Asked(host: Host, r: Report, q: Query) {
    && host.clock(Text(r.startedAt)).Some?
    && (q.incidentId == None || q.incidentId == Some(r.incidentId))
    && (q.componentId == None || q.componentId == Some(r.componentId))
    && (q.finalStatuses == {} || InUpper(r.finalStatus, q.finalStatuses))
    && (q.commanderRequired == None || q.commanderRequired == Some(r.commanderRequired))
    && (q.complete == None || q.complete == Some(r.completeness.complete))
    && InTime(host.clock(Text(r.startedAt)).value, q.startedFrom, q.startedBefore)
    && (NarrowsEvents(q) ==> exists i :: 0 <= i < |r.timeline| && Wanted(host, r.timeline[i], q))
  }

  lemma MatchesAreWanted(host: Host, event: Item, r: Report, q: Query)
    requires EventOk(host, event, r.incidentId, r.componentId)
    ensures EventMatches(host, event, q) <==> Wanted(host, event, q)
  {
    InUpperIs(event["signal_type"].s, q.signalTypes);
    InUpperIs(event["source"].s, q.sources);
    hide InUpper, FieldValue, Map;
  }

  lemma SelectsAsked(host: Host, r: Report, q: Query)
    requires ValidReport(host, r)
    ensures Selects(host, r, q) <==> Asked(host, r, q)
  {
    InUpperIs(r.finalStatus, q.finalStatuses);
    forall i | 0 <= i < |r.timeline| ensures EventMatches(host, r.timeline[i], q) <==> Wanted(host, r.timeline[i], q) {
      MatchesAreWanted(host, r.timeline[i], r, q);
    }
    SomeMatched(host, r.timeline, q);
    hide InUpper, Map, EventMatches, Wanted, EventOk, Verified, TimelineDigest, MatchedEvents;
  }

  lemma SomeMatched(host: Host, events: seq<Item>, q: Query)
    ensures MatchedEvents(host, events, q) != [] <==> exists i :: 0 <= i < |events| && EventMatches(host, events[i], q)
  {
    hide EventMatches;
    if MatchedEvents(host, events, q) != [] {
      var e := MatchedEvents(host, events, q)[0];
      MatchedEventsExactly(host, events, q, e);
      var i :| 0 <= i < |events| && events[i] == e;
    }
    if i :| 0 <= i < |events| && EventMatches(host, events[i], q) {
      MatchedEventsExactly(host, events, q, events[i]);
    }
  }

  ghost predicate AskedFor(host: Host, reports: seq<Report>, q: Query, s: Summary) {
    && s.report in reports && Asked(host, s.report, q)
    && forall e :: e in s.events <==> e in s.report.timeline && Wanted(host, e, q)
  }

  /**
   Over sound reports, a search answers with the reports that were asked for, each with
   exactly its wanted events, and leaves none of them out; earlier incidents come
   first, and those of one time are in the order of their ids.
   */
  lemma SearchAnswers(host: Host, reports: seq<Report>, q: Query)
    requires forall text :: host.digest(text) != ""
    ensures Answer(host, reports, q).Some? <==> forall r :: r in reports ==> SoundReport(host, r)
    ensures Answer(host, reports, q).Some? ==>
      var answer := Answer(host, reports, q).value;
      && (forall s :: s in answer ==> AskedFor(host, reports, q, s))
      && (forall r :: r in reports && Asked(host, r, q) ==> exists s :: s in answer && s.report == r)
      && forall i, j :: 0 <= i < j < |answer| ==>
           var t, u := host.clock(Text(answer[i].report.startedAt)), host.clock(Text(answer[j].report.startedAt));
           && t.Some? && u.Some? && t.value <= u.value
           && (t == u ==> NotAfter(answer[i].report.incidentId, answer[j].report.incidentId))
  {
    forall r ensures ValidReport(host, r) <==> SoundReport(host, r) {
      ValidMeansSound(host, r);
    }
    SearchIsExact(host, reports, q);
    if Answer(host, reports, q).Some? {
      var answer := Answer(host, reports, q).value;
      hide ValidReport, SoundReport, Selects, Asked, MatchedEvents, Answer, NotAfter, EventMatches, Wanted;
      forall s | s in answer ensures AskedFor(host, reports, q, s) {
        AnsweredIsAsked(host, reports, q, s);
      }
      forall r | r in reports && Asked(host, r, q) ensures exists s :: s in answer && s.report == r {
        SelectsAsked(host, r, q);
        assert Summary(r, MatchedEvents(host, r.timeline, q)) in answer;
      }
      forall i, j | 0 <= i < j < |answer|
        ensures var t, u := host.clock(Text(answer[i].report.startedAt)), host.clock(Text(answer[j].report.startedAt));
                && t.Some? && u.Some? && t.value <= u.value
                && (t == u ==> NotAfter(answer[i].report.incidentId, answer[j].report.incidentId))
      {
        assert answer[i] in answer && answer[j] in answer;
        ValidHasStart(host, answer[i].report);
        ValidHasStart(host, answer[j].report);
        TextOrder(answer[i].report.incidentId, answer[j].report.incidentId);
        assert ByStart(host)(answer[i], answer[j]);
      }
    }
  }

  lemma ValidHasStart(host: Host, r: Report)
    requires ValidReport(host, r)
    ensures host.clock(Text(r.startedAt)).Some?
  {}

  lemma AnsweredIsAsked(host: Host, reports: seq<Report>, q: Query, s: Summary)
    requires AllValid(host, reports) && s in Answer(host, reports, q).value
    ensures AskedFor(host, reports, q, s)
  {
    hide ValidReport, Asked, MatchedEvents, Wanted, EventMatches, Selects;
    SearchIsExact(host, reports, q);
    var k :| 0 <= k < |reports| && reports[k] == s.report;
    SelectsAsked(host, s.report, q);
    forall e | e in s.report.timeline ensures EventMatches(host, e, q) <==> Wanted(host, e, q) {
      EventOfValid(host, s.report, e);
      MatchesAreWanted(host, e, s.report, q);
    }
    hide Answer;
  }

  lemma EventOfValid(host: Host, r: Report, e: Item)
    requires ValidReport(host, r) && e in r.timeline
    ensures EventOk(host, e, r.incidentId, r.componentId)
  {
    hide EventOk, Verified, TimelineDigest;
  }
}
