/**
 `transition` loads, decides and writes in separate steps. When two transitions of
 one identity overlap, a recorded verdict can be lost; when they do not, never.
 */
module EffectOverlap {
  import opened Values
  import opened JournalDisk
  import opened EffectProtocol
  import opened EffectInvariant
  import opened EffectSteps
  import opened EffectTheorems

  // ---------------------------------------------------- when they do overlap

  /** An owner about to write its verdict, and a sweep about to write UNKNOWN over the same record. */
  ghost predicate Racing(s: State, c: nat, k: nat) {
    && c in s.callers && k in s.sweeps
    && s.callers[c].phase.Writing?
    && HasVerdict(s.callers[c].phase.next)
    && s.sweeps[k].executionId == IdOf(s.callers[c].request)
  }

  /**
   Both orders go wrong: the sweep erases the verdict that the owner has reported,
   or the owner turns the sweep's UNKNOWN into a verdict.
   */
  lemma RaceLosesARecord(s: State, c: nat, k: nat)
    requires Inv(s) && Racing(s, c, k)
    ensures var id := IdOf(s.callers[c].request);
            var t, u := DoStore(s, c), DoSweepStore(s, k);
            && Enabled(t, SweepStore(k)) && Enabled(u, Store(c))
            && t.callers[c].phase.Returned?
            && id in t.disk.records && HasVerdict(t.disk.records[id])
            && DoSweepStore(t, k).disk.records[id].status.Unknown?
            && id in u.disk.records && u.disk.records[id].status.Unknown?
            && HasVerdict(DoStore(u, c).disk.records[id])
  {
    hide IdOf, RecordOk, RecordsOk, CallersOk, VerdictsFinal, CallsOk, CallerOk;
    CallerFact(s, c);
    WriterFacts(s, c);
    assert SweepOk(s, s.sweeps[k]);
  }

  const RACER := Plain("a", "incident", "component", "restart", "systemctl restart a", Decision(true, "component", "restart"))
  const RACER_OUTPUT := Output("systemctl restart a", "", "", 0, 3, 4)

  /** One caller up to its verdict, and a sweep that has just loaded the RUNNING record. */
  function RacingSteps(): seq<Step> {
    [Arrive(0, RACER), Admit(0), Stage(0, 1), Publish(0), Load(0, 2), Store(0),
     Call(0, Some(RACER_OUTPUT)), Load(0, 5), SweepLoad(0, "a", 6)]
  }

  lemma RacerIsValid()
    ensures ValidateId("a") == Some("a") && IdOf(RACER) == "a" && Admitted(RACER) && ClaimOk(RACER)
  {
    assert StripLeft("a") == "a" && StripRight("a") == "a";
    assert Strip("restart") != "" by { StripKeepsText("restart"); }
    assert Strip("systemctl restart a") != "" by { StripKeepsText("systemctl restart a"); }
  }

  lemma {:induction false} StripRightKeepsFirst(s: string)
    requires s != "" && !Blank(s[0])
    ensures StripRight(s) != ""
  {
    if Blank(s[|s| - 1]) {
      StripRightKeepsFirst(s[..|s| - 1]);
    }
  }

  lemma StripKeepsText(s: string)
    requires s != "" && !Blank(s[0])
    ensures Strip(s) != ""
  {
    StripRightKeepsFirst(s);
  }

  function RacerRecord(status: Status, now: int, execution: Option<Execution>, reason: Option<string>): Record {
    Record("a", status, "incident", "component", "restart", "systemctl restart a", 1, now, execution, reason)
  }

  function RacerState(staging: map<nat, Record>, records: map<string, Record>, phase: Phase, log: seq<Event>): State {
    State(Disk(map[], records, staging), map[0 := Caller(RACER, phase)], map[], map[],
          map id | id in records :: 0, log)
  }

  lemma RacerPublishes()
    ensures var claimed := RacerRecord(Claimed, 1, None, None);
            var s1 := RacerState(map[], map[], Arrived, []);
            var s2 := RacerState(map[], map[], Ready, []);
            var s3 := RacerState(map[0 := claimed], map[], Staged, []);
            var s4 := RacerState(map[], map["a" := claimed], Won, [Published(0, "a")]);
            && Enabled(Init(), Arrive(0, RACER)) && Do(Init(), Arrive(0, RACER)) == s1
            && Enabled(s1, Admit(0)) && Do(s1, Admit(0)) == s2
            && Enabled(s2, Stage(0, 1)) && Do(s2, Stage(0, 1)) == s3
            && Enabled(s3, Publish(0)) && Do(s3, Publish(0)) == s4
  {
    RacerIsValid();
    hide IdOf, ClaimOk, Admitted, ValidateId;
    var claimed := RacerRecord(Claimed, 1, None, None);
    assert FreshRecord(RACER, 1) == claimed;
    assert map[0 := claimed] - {0} == map[];
    assert DoPublish(RacerState(map[0 := claimed], map[], Staged, []), 0).identityWinner
        == RacerState(map[], map["a" := claimed], Won, [Published(0, "a")]).identityWinner;
  }

  lemma RacerArms(log: seq<Event>)
    ensures var claimed, running := RacerRecord(Claimed, 1, None, None), RacerRecord(Running, 2, None, None);
            var s4 := RacerState(map[], map["a" := claimed], Won, log);
            var s5 := RacerState(map[], map["a" := claimed], Writing(running, Armed), log);
            var s6 := RacerState(map[], map["a" := running], Armed, log + [Stored(0, "a", Running)]);
            && Enabled(s4, Load(0, 2)) && Do(s4, Load(0, 2)) == s5
            && Enabled(s5, Store(0)) && Do(s5, Store(0)) == s6
  {
    RacerIsValid();
    hide IdOf, ClaimOk, Admitted, ValidateId;
    var claimed, running := RacerRecord(Claimed, 1, None, None), RacerRecord(Running, 2, None, None);
    assert map["a" := claimed]["a" := running] == map["a" := running];
    assert (map id | id in map["a" := claimed] :: 0) == (map id | id in map["a" := running] :: 0);
  }

  lemma RacerCalls(log: seq<Event>)
    ensures var running := RacerRecord(Running, 2, None, None);
            var s6 := RacerState(map[], map["a" := running], Armed, log);
            var s7 := RacerState(map[], map["a" := running], Finished(RACER_OUTPUT), log + [Called(0, RACER)]);
            && Enabled(s6, Call(0, Some(RACER_OUTPUT))) && Do(s6, Call(0, Some(RACER_OUTPUT))) == s7
  {}

  lemma RacerRaces(log: seq<Event>)
    ensures var running := RacerRecord(Running, 2, None, None);
            var done := RacerRecord(Succeeded, 5, Some(Keep(RACER_OUTPUT)), None);
            var s7 := RacerState(map[], map["a" := running], Finished(RACER_OUTPUT), log);
            var s8 := RacerState(map[], map["a" := running], Writing(done, Returned(Reply(Some(RACER_OUTPUT), done, false))), log);
            && Enabled(s7, Load(0, 5)) && Do(s7, Load(0, 5)) == s8
            && Enabled(s8, SweepLoad(0, "a", 6)) && Racing(Do(s8, SweepLoad(0, "a", 6)), 0, 0)
  {
    RacerIsValid();
    hide IdOf, ClaimOk, Admitted, ValidateId;
  }

  lemma Prepend(s: State, step: Step, rest: seq<Step>)
    requires Enabled(s, step) && Runs(Do(s, step), rest)
    ensures Runs(s, [step] + rest) && After(s, [step] + rest) == After(Do(s, step), rest)
  {
    hide Enabled, Do;
    assert ([step] + rest)[1..] == rest;
  }

  /** Such a race is one crash-free run away from the empty disk. */
  lemma RaceIsReachable()
    ensures Runs(Init(), RacingSteps())
    ensures Racing(After(Init(), RacingSteps()), 0, 0)
  {
    hide Enabled, Do, Racing;
    RacerPublishes();
    RacerArms([Published(0, "a")]);
    RacerCalls([Published(0, "a")] + [Stored(0, "a", Running)]);
    RacerRaces([Published(0, "a"), Stored(0, "a", Running), Called(0, RACER)]);
    var claimed, running := RacerRecord(Claimed, 1, None, None), RacerRecord(Running, 2, None, None);
    var done := RacerRecord(Succeeded, 5, Some(Keep(RACER_OUTPUT)), None);
    var log4 := [Published(0, "a")];
    var log7 := [Published(0, "a"), Stored(0, "a", Running), Called(0, RACER)];
    var s7 := RacerState(map[], map["a" := running], Finished(RACER_OUTPUT), log7);
    assert log4 + [Stored(0, "a", Running)] + [Called(0, RACER)] == log7;
    var s8 := Do(s7, Load(0, 5));
    assert Runs(Do(s8, SweepLoad(0, "a", 6)), []);
    Prepend(s8, SweepLoad(0, "a", 6), []);
    Prepend(s7, Load(0, 5), [SweepLoad(0, "a", 6)]);
    var s6 := RacerState(map[], map["a" := running], Armed, log4 + [Stored(0, "a", Running)]);
    var r6 := [Load(0, 5)] + [SweepLoad(0, "a", 6)];
    Prepend(s6, Call(0, Some(RACER_OUTPUT)), r6);
    var s5 := RacerState(map[], map["a" := claimed], Writing(running, Armed), log4);
    var r5 := [Call(0, Some(RACER_OUTPUT))] + r6;
    Prepend(s5, Store(0), r5);
    var s4 := RacerState(map[], map["a" := claimed], Won, log4);
    var r4 := [Store(0)] + r5;
    Prepend(s4, Load(0, 2), r4);
    var s3 := RacerState(map[0 := claimed], map[], Staged, []);
    var r3 := [Load(0, 2)] + r4;
    Prepend(s3, Publish(0), r3);
    var s2 := RacerState(map[], map[], Ready, []);
    var r2 := [Publish(0)] + r3;
    Prepend(s2, Stage(0, 1), r2);
    var s1 := RacerState(map[], map[], Arrived, []);
    var r1 := [Stage(0, 1)] + r2;
    Prepend(s1, Admit(0), r1);
    var r0 := [Admit(0)] + r1;
    Prepend(Init(), Arrive(0, RACER), r0);
    assert [Arrive(0, RACER)] + r0 == RacingSteps();
  }

  // --------------------------------------------------- when they do not

  /** No two pending writes concern the same identity, as a lock per identity would have it. */
  ghost predicate NoOverlap(s: State) {
    && (forall c, k :: c in s.callers && s.callers[c].phase.Writing? && k in s.sweeps ==>
          s.sweeps[k].executionId != IdOf(s.callers[c].request))
    && (forall k, l :: k in s.sweeps && l in s.sweeps && k != l ==> s.sweeps[k].executionId != s.sweeps[l].executionId)
  }

  ghost predicate CallerFresh(s: State, q: Caller) {
    q.phase.Writing? ==> IdOf(q.request) in s.disk.records && !Terminal(s.disk.records[IdOf(q.request)].status)
  }

  ghost predicate SweepFresh(s: State, next: Record) {
    next.executionId in s.disk.records && !Terminal(s.disk.records[next.executionId].status)
  }

  /** Every pending write still finds its record unfinished. */
  ghost predicate PendingFresh(s: State) {
    && (forall c :: c in s.callers ==> CallerFresh(s, s.callers[c]))
    && (forall k :: k in s.sweeps ==> SweepFresh(s, s.sweeps[k]))
  }

  ghost predicate SeparateRun(s: State, steps: seq<Step>)
    requires Runs(s, steps)
    decreases |steps|
  {
    NoOverlap(s) && (steps == [] || SeparateRun(Do(s, steps[0]), steps[1..]))
  }

  lemma FreshIsGuarded(s: State, step: Step)
    requires Enabled(s, step) && PendingFresh(s)
    ensures Guarded(s, step)
  {
    hide IdOf;
    if step.Store? {
      assert CallerFresh(s, s.callers[step.c]);
    }
  }

  /** Two writing callers own different identities. */
  lemma OwnersDiffer(s: State, c: nat, d: nat)
    requires Inv(s) && c in s.callers && d in s.callers && c != d
    requires s.callers[c].phase.Writing? && s.callers[d].phase.Writing?
    ensures IdOf(s.callers[c].request) != IdOf(s.callers[d].request)
  {
    hide IdOf, RecordsOk, SweepsOk, CallersOk, VerdictsFinal, CallsOk, CallerOk, WritingOk;
    CallerFact(s, c);
    CallerFact(s, d);
    WriterFacts(s, c);
    WriterFacts(s, d);
  }

  /** A step leaves the record of an identity alone unless it writes that identity. */
  predicate Writes(s: State, step: Step, id: string)
    requires Enabled(s, step)
  {
    || (step.Store? && IdOf(s.callers[step.c].request) == id)
    || (step.SweepStore? && s.sweeps[step.k].executionId == id)
  }

  lemma RecordStays(s: State, step: Step, id: string)
    requires Enabled(s, step) && id in s.disk.records && !Writes(s, step, id)
    ensures id in Do(s, step).disk.records && Do(s, step).disk.records[id] == s.disk.records[id]
  {
    hide IdOf;
    if step.Link? {
      hide RunKey, PermitOf;
    } else if step.Publish? {
      hide Validates;
    } else if !step.Store? && !step.SweepStore? {
      hide Do;
      QuietStep(s, step);
    }
  }

  lemma LoadIsFresh(s: State, c: nat, now: int)
    requires Enabled(s, Load(c, now))
    ensures c in DoLoad(s, c, now).callers && CallerFresh(DoLoad(s, c, now), DoLoad(s, c, now).callers[c])
  {
    hide IdOf, PlanOf, AfterRecord, Updated;
    if IdOf(s.callers[c].request) in s.disk.records && Terminal(s.disk.records[IdOf(s.callers[c].request)].status) {
      LoadOfTerminal(s, c, now);
    }
  }

  lemma LoadOfTerminal(s: State, c: nat, now: int)
    requires Enabled(s, Load(c, now)) && IdOf(s.callers[c].request) in s.disk.records
    requires Terminal(s.disk.records[IdOf(s.callers[c].request)].status)
    ensures !DoLoad(s, c, now).callers[c].phase.Writing?
  {
    hide IdOf, PlanOf, Updated;
  }

  lemma NoWritingAfterStore(s: State, c: nat)
    requires Inv(s) && Enabled(s, Store(c))
    ensures !DoStore(s, c).callers[c].phase.Writing?
  {
    hide IdOf, RecordsOk, SweepsOk, CallersOk, VerdictsFinal, CallsOk, CallerOk, RecordOk;
    CallerFact(s, c);
    WriterFacts(s, c);
  }

  lemma NoWritingFromDisk(s: State, step: Step, c: nat)
    requires Enabled(s, step) && ActorOf(step) == c && c in Do(s, step).callers
    requires step.Link? || step.Stage? || step.Publish? || step.ReadPermitted? || step.Poll?
    ensures !Do(s, step).callers[c].phase.Writing?
  {
    hide IdOf, RunKey, PermitOf, ClaimOk, Validates, FreshRecord, NameTaken, RawId, ValidateId, Rebuild;
  }

  lemma NoWritingOtherwise(s: State, step: Step, c: nat)
    requires Inv(s) && Enabled(s, step) && ActorOf(step) == c && c in Do(s, step).callers && !step.Load?
    ensures !Do(s, step).callers[c].phase.Writing?
  {
    hide Inv;
    if step.Store? {
      hide DoStore;
      NoWritingAfterStore(s, c);
    } else if step.Link? || step.Stage? || step.Publish? || step.ReadPermitted? || step.Poll? {
      hide Do, Enabled;
      NoWritingFromDisk(s, step, c);
    } else {
      hide IdOf, Admitted;
    }
  }

  lemma CallersStayFresh(s: State, step: Step, c: nat)
    requires Inv(s) && Enabled(s, step) && NoOverlap(s) && PendingFresh(s) && c in Do(s, step).callers
    ensures CallerFresh(Do(s, step), Do(s, step).callers[c])
  {
    hide Inv, Do, IdOf, Enabled;
    var q := Do(s, step).callers[c];
    if c == ActorOf(step) {
      if step.Load? {
        hide CallerFresh, DoLoad;
        ActorLoads(s, step, c);
      } else {
        NoWritingOtherwise(s, step, c);
      }
    } else {
      OnlyTheActorMoves(s, step, c);
      assert CallerFresh(s, s.callers[c]);
      if q.phase.Writing? {
        NotWritten(s, step, c);
        RecordStays(s, step, IdOf(q.request));
      }
    }
  }

  lemma ActorLoads(s: State, step: Step, c: nat)
    requires Enabled(s, step) && step.Load? && step.c == c
    ensures c in Do(s, step).callers && CallerFresh(Do(s, step), Do(s, step).callers[c])
  {
    hide IdOf, DoLoad, CallerFresh;
    LoadIsFresh(s, c, step.now);
  }

  lemma NotWritten(s: State, step: Step, c: nat)
    requires Inv(s) && Enabled(s, step) && NoOverlap(s) && c in s.callers && s.callers[c].phase.Writing? && c != ActorOf(step)
    ensures !Writes(s, step, IdOf(s.callers[c].request))
  {
    hide Inv, IdOf;
    if step.Store? {
      OwnersDiffer(s, step.c, c);
    }
  }

  lemma SweepsStayFresh(s: State, step: Step, k: nat)
    requires Inv(s) && Enabled(s, step) && NoOverlap(s) && PendingFresh(s) && k in Do(s, step).sweeps
    ensures SweepFresh(Do(s, step), Do(s, step).sweeps[k])
  {
    hide Inv, IdOf, RunKey, PermitOf, Admitted, ClaimOk, Validates, RawId, ValidateId, FreshRecord, Rebuild, PlanOf, AfterRecord,
         Updated, DoLoad, DoPublish, DoLink, DoStage, DoReadPermitted, DoPoll, CallerFresh;
    SweepsKeptBy(s, step, k);
    if step.SweepLoad? && step.k == k {
      SweepLoadIsFresh(s, step.k, step.id, step.now);
    } else {
      hide Do;
      assert SweepFresh(s, s.sweeps[k]);
      RecordStays(s, step, s.sweeps[k].executionId);
    }
  }

  lemma SweepsKeptBy(s: State, step: Step, k: nat)
    requires Enabled(s, step) && NoOverlap(s) && k in Do(s, step).sweeps
    ensures (step.SweepLoad? && step.k == k)
         || (k in s.sweeps && Do(s, step).sweeps[k] == s.sweeps[k] && !Writes(s, step, s.sweeps[k].executionId))
  {
    hide IdOf, Transition, DoLink, DoStage, DoPublish, DoReadPermitted, DoPoll, DoLoad, Admitted;
    if !step.SweepLoad? && !step.SweepStore? && !step.SweepStop? {
      SweepsSame(s, step);
    }
  }

  lemma SweepsSame(s: State, step: Step)
    requires Enabled(s, step) && !step.SweepLoad? && !step.SweepStore? && !step.SweepStop?
    ensures Do(s, step).sweeps == s.sweeps
  {
    hide IdOf, RunKey, PermitOf, Admitted, ClaimOk, Validates, RawId, ValidateId, FreshRecord, Rebuild, PlanOf, AfterRecord,
         Transition, NameTaken, AfterRefusal;
  }

  lemma SweepLoadIsFresh(s: State, k: nat, id: string, now: int)
    requires Inv(s) && Enabled(s, SweepLoad(k, id, now)) && k in DoSweepLoad(s, k, id, now).sweeps
    ensures SweepFresh(DoSweepLoad(s, k, id, now), DoSweepLoad(s, k, id, now).sweeps[k])
  {
    hide IdOf, SweepsOk, CallersOk, VerdictsFinal, CallsOk;
    assert RecordOk(s.disk.records[id], s.callers[s.identityWinner[id]].request);
  }

  lemma StepKeepsFresh(s: State, step: Step)
    requires Inv(s) && Enabled(s, step) && NoOverlap(s) && PendingFresh(s)
    ensures PendingFresh(Do(s, step))
  {
    hide Inv, Enabled, Do, NoOverlap, CallerFresh, SweepFresh;
    var t := Do(s, step);
    forall c | c in t.callers ensures CallerFresh(t, t.callers[c]) {
      CallersStayFresh(s, step, c);
    }
    forall k | k in t.sweeps ensures SweepFresh(t, t.sweeps[k]) {
      SweepsStayFresh(s, step, k);
    }
  }

  lemma {:induction false} SeparateRunsAreFresh(s: State, steps: seq<Step>)
    requires Inv(s) && PendingFresh(s) && Runs(s, steps) && SeparateRun(s, steps)
    ensures Inv(After(s, steps)) && PendingFresh(After(s, steps)) && GuardedRun(s, steps)
    decreases |steps|
  {
    hide Inv, Enabled, Do, Guarded, NoOverlap, PendingFresh;
    if steps != [] {
      StepKeeps(s, steps[0]);
      FreshIsGuarded(s, steps[0]);
      StepKeepsFresh(s, steps[0]);
      SeparateRunsAreFresh(Do(s, steps[0]), steps[1..]);
    }
  }

  /**
   Where transitions of one identity never overlap, every write is guarded: at every
   step, and from the start of the run to its end, no rank falls, no terminal record
   changes and every permit stays.
   */
  lemma SeparateTransitionsAreGuarded(s: State, steps: seq<Step>)
    requires Inv(s) && PendingFresh(s) && Runs(s, steps) && SeparateRun(s, steps)
    ensures GuardedRun(s, steps) && MonotoneRun(s, steps)
    ensures Evolves(s.disk, After(s, steps).disk)
  {
    hide Inv, Enabled, Do, NoOverlap, PendingFresh, Evolves;
    SeparateRunsAreFresh(s, steps);
    MonotoneExactlyWhenGuarded(s, steps);
  }
}
