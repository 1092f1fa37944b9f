/**
 The methods of the agent ledger load a record and write it later. When two of them
 overlap on one key, an UNKNOWN can be lost; this says exactly when.
 */
module AgentOverlap {
  import opened Values
  import opened AgentBoundary
  import opened AgentLedger
  import opened AgentLedgerProofs

  /** The record under the key is finished, in that state. */
  predicate Says(s: Ledger, key: string, state: State) {
    && key in s.dirs && s.dirs[key].Some?
    && s.dirs[key].value.state == state && !Unfinished(s.dirs[key].value)
  }

  /** A caller that has loaded the record of the key and is about to write another state over it. */
  predicate Rival(s: Ledger, key: string, state: State, c: nat) {
    c in s.callers && Key(s, c) == key && s.callers[c].phase.Writing? && s.callers[c].phase.next.state != state
  }

  ghost predicate Unrivalled(s: Ledger, key: string, state: State) {
    forall c :: !Rival(s, key, state, c)
  }

  /** Nobody starts to write over a finished record: every load of it is answered or refused. */
  lemma LoadOfFinished(s: Ledger, step: Step, key: string, state: State, c: nat)
    requires Inv(s) && Enabled(s, step) && Says(s, key, state)
    requires c in Do(s, step).callers && Key(Do(s, step), c) == key && Do(s, step).callers[c].phase.Writing?
    ensures c in s.callers && s.callers[c] == Do(s, step).callers[c]
  {
    hide Inv;
    NewWriterLoaded(s, step, c);
    if step.Store? && step.c == c {
      assert CallerOk(s, c, s.callers[c]) by { CallerFact(s, c); }
      StoreLeavesWriting(s, c);
    }
  }

  lemma CallerFact(s: Ledger, c: nat)
    requires Inv(s) && c in s.callers
    ensures CallerOk(s, c, s.callers[c])
  {
    hide CallerOk, DirsOk, LogOk;
  }

  lemma OnlyWritesChange(s: Ledger, step: Step, key: string)
    requires Inv(s) && Enabled(s, step) && key in s.dirs && s.dirs[key].Some?
    ensures key in Do(s, step).dirs
    ensures Do(s, step).dirs[key] ==
      if step.Store? && Key(s, step.c) == key then Some(s.callers[step.c].phase.next) else s.dirs[key]
  {
    hide Continues, Final, Judge, RecordOk, SuccessLogged, LogOk;
    if step.WriteFirst? {
      assert CallerOk(s, step.c, s.callers[step.c]);
    }
  }

  lemma StepKeepsSaying(s: Ledger, step: Step, key: string, state: State)
    requires Inv(s) && Enabled(s, step) && Says(s, key, state) && Unrivalled(s, key, state)
    ensures Says(Do(s, step), key, state) && Unrivalled(Do(s, step), key, state)
  {
    hide Inv, Enabled, Do;
    OnlyWritesChange(s, step, key);
    var t := Do(s, step);
    if step.Store? {
      WriterIsWriting(s, step);
      if Key(s, step.c) == key {
        StoredIsFinished(s, step.c, key, state);
      }
    }
    forall c | c in t.callers && Key(t, c) == key && t.callers[c].phase.Writing? ensures !Rival(t, key, state, c) {
      LoadOfFinished(s, step, key, state, c);
      assert !Rival(s, key, state, c);
    }
  }

  lemma StoredIsFinished(s: Ledger, c: nat, key: string, state: State)
    requires Enabled(s, Store(c)) && Key(s, c) == key && Unrivalled(s, key, state)
    requires state.Succeeded? || state.Failed? || state.Unknown?
    ensures s.callers[c].phase.next.state == state && !Unfinished(s.callers[c].phase.next)
  {
    assert !Rival(s, key, state, c);
  }

  lemma {:induction false} RunsKeepSaying(s: Ledger, steps: seq<Step>, key: string, state: State)
    requires Inv(s) && Says(s, key, state) && Unrivalled(s, key, state) && Runs(s, steps)
    ensures Says(After(s, steps), key, state)
    decreases |steps|
  {
    hide Inv, Enabled, Do, Says, Unrivalled;
    if steps != [] {
      StepKeeps(s, steps[0]);
      StepKeepsSaying(s, steps[0], key, state);
      RunsKeepSaying(Do(s, steps[0]), steps[1..], key, state);
    }
  }

  ghost predicate SaysForGood(s: Ledger, key: string, state: State) {
    forall steps :: Runs(s, steps) ==> Says(After(s, steps), key, state)
  }

  /**
   A finished record keeps its state in every continuation if and only if nobody has
   loaded it before and is still about to write another state.
   */
  lemma FinishedStands(s: Ledger, key: string, state: State)
    requires Inv(s) && Says(s, key, state)
    ensures SaysForGood(s, key, state) <==> Unrivalled(s, key, state)
  {
    if Unrivalled(s, key, state) {
      hide Inv, Enabled, Do, Says, Unrivalled;
      forall steps | Runs(s, steps) ensures Says(After(s, steps), key, state) {
        RunsKeepSaying(s, steps, key, state);
      }
    } else {
      var c :| Rival(s, key, state, c);
      OneStep(s, Store(c));
      OnlyWritesChange(s, Store(c), key);
      assert !Says(After(s, [Store(c)]), key, state);
    }
  }

  lemma OneStep(s: Ledger, step: Step)
    requires Enabled(s, step)
    ensures Runs(s, [step]) && After(s, [step]) == Do(s, step)
  {
    hide Enabled, Do;
    assert [step][1..] == [] && Runs(Do(s, step), []);
  }

  /** In particular for the UNKNOWN that a replay writes. */
  lemma UnknownStays(steps: seq<Step>, key: string)
    requires Runs(Init(), steps) && Says(After(Init(), steps), key, Unknown)
    ensures SaysForGood(After(Init(), steps), key, Unknown) <==>
      forall c :: !Rival(After(Init(), steps), key, Unknown, c)
  {
    hide Enabled, Do, Says, Rival;
    InitHolds();
    RunRefines(Init(), steps);
    FinishedStands(After(Init(), steps), key, Unknown);
  }

  // ------------------------------------------------- methods that do not overlap

  /** No two callers are between load and write of one key, as a lock per key would have it. */
  predicate NoOverlap(s: Ledger) {
    forall c, d | c in s.callers && d in s.callers && c != d ::
      s.callers[c].phase.Writing? && s.callers[d].phase.Writing? ==> Key(s, c) != Key(s, d)
  }

  predicate SeparateRun(s: Ledger, steps: seq<Step>)
    requires Runs(s, steps)
    decreases |steps|
  {
    NoOverlap(s) && (steps == [] || SeparateRun(Do(s, steps[0]), steps[1..]))
  }

  /** Whoever is about to write still finds the record unfinished. */
  ghost predicate WritersFresh(s: Ledger) {
    forall c :: c in s.callers && s.callers[c].phase.Writing? ==>
      Key(s, c) in s.dirs && s.dirs[Key(s, c)].Some? && Unfinished(s.dirs[Key(s, c)].value)
  }

  lemma NewWriterLoaded(s: Ledger, step: Step, c: nat)
    requires Enabled(s, step) && c in Do(s, step).callers && Do(s, step).callers[c].phase.Writing?
    ensures c in s.callers && Key(Do(s, step), c) == Key(s, c)
    ensures s.callers[c] == Do(s, step).callers[c]
      || (step.c == c && !step.Store? && Loaded(s, c).Some? && Unfinished(Loaded(s, c).value))
      || (step.Store? && step.c == c)
  {
    hide Continues, Final, Judge;
  }

  lemma StoreLeavesWriting(s: Ledger, c: nat)
    requires Enabled(s, Store(c)) && CallerOk(s, c, s.callers[c])
    ensures !Do(s, Store(c)).callers[c].phase.Writing?
  {
    hide RecordOk, SuccessLogged;
  }

  lemma WritersStayFresh(s: Ledger, step: Step)
    requires Inv(s) && Enabled(s, step) && WritersFresh(s) && NoOverlap(s)
    ensures WritersFresh(Do(s, step))
  {
    var t := Do(s, step);
    hide Do, Enabled, CallerOk, DirsOk, LogOk;
    forall c | c in t.callers && t.callers[c].phase.Writing?
      ensures Key(t, c) in t.dirs && t.dirs[Key(t, c)].Some? && Unfinished(t.dirs[Key(t, c)].value)
    {
      NewWriterLoaded(s, step, c);
      if step.Store? && step.c == c {
        assert CallerOk(s, c, s.callers[c]);
        StoreLeavesWriting(s, c);
      }
      OnlyWritesChange(s, step, Key(s, c));
      if step.Store? {
        WriterIsWriting(s, step);
      }
    }
  }

  lemma WriterIsWriting(s: Ledger, step: Step)
    requires Enabled(s, step) && step.Store?
    ensures step.c in s.callers && s.callers[step.c].phase.Writing?
  {}

  lemma {:induction false} SeparateRunsAreFresh(s: Ledger, steps: seq<Step>)
    requires Inv(s) && WritersFresh(s) && Runs(s, steps) && SeparateRun(s, steps)
    ensures Inv(After(s, steps)) && WritersFresh(After(s, steps))
    decreases |steps|
  {
    hide Inv, Enabled, Do, WritersFresh, NoOverlap;
    if steps != [] {
      StepKeeps(s, steps[0]);
      WritersStayFresh(s, steps[0]);
      SeparateRunsAreFresh(Do(s, steps[0]), steps[1..]);
    }
  }

  /**
   If so far no two methods were ever between load and write of one key together,
   every finished record stands for good, whatever happens afterwards.
   */
  lemma FinishedStandsAfterSeparateRuns(steps: seq<Step>, key: string, state: State)
    requires Runs(Init(), steps) && SeparateRun(Init(), steps) && Says(After(Init(), steps), key, state)
    ensures SaysForGood(After(Init(), steps), key, state)
  {
    hide Inv, Enabled, Do, NoOverlap;
    InitHolds();
    SeparateRunsAreFresh(Init(), steps);
    FinishedStands(After(Init(), steps), key, state);
  }

  // ------------------------------------------------------- the race, reached

  const TRIED := AgentRequest("r", "agent", "task", "operation", "{}")
  const ANSWER := RawResult("r", "agent", "task", "done", AgentStatus.Succeeded)
  const GOOD := Conduct(true, Returns(ANSWER), Judges(Decision(true, "ok")))

  /** The owner up to the load of its finalize; then a replay, which loads RUNNING, and writes UNKNOWN. */
  function RacingSteps(): seq<Step> {
    [Arrive(0, TRIED), MakeDirectory(0), WriteFirst(0, 1), LoadToMark(0, 2), Store(0), Run(0, GOOD), LoadToFinalize(0, 3),
     Arrive(1, TRIED), MakeDirectory(1), Collide(1, 4), Store(1)]
  }

  lemma Prepend(s: Ledger, step: Step, rest: seq<Step>)
    requires Enabled(s, step) && Runs(Do(s, step), rest)
    ensures Runs(s, [step] + rest) && After(s, [step] + rest) == After(Do(s, step), rest)
  {
    hide Enabled, Do;
    assert ([step] + rest)[1..] == rest;
  }

  function Running(): Record {
    Initial(TRIED, 1).(state := State.Running, updatedAt := 2)
  }

  /** The owner's state of the ledger, in that phase and with that record, and with the call logged or not. */
  function Owned(phase: Phase, record: Record, log: seq<Attempt>): Ledger {
    Ledger(map["r" := Some(record)], map[0 := Caller(TRIED, phase)], map["r" := 0], log)
  }

  function CallLog(): seq<Attempt> {
    [Attempt(0, TRIED, Judge(TRIED, GOOD))]
  }

  function Finalized(): Record {
    Final(Running(), Judge(TRIED, GOOD), 3)
  }

  lemma OwnerOpens()
    ensures Enabled(Init(), Arrive(0, TRIED))
    ensures var s1 := Do(Init(), Arrive(0, TRIED));
            && Enabled(s1, MakeDirectory(0)) && Enabled(Do(s1, MakeDirectory(0)), WriteFirst(0, 1))
            && Do(Do(s1, MakeDirectory(0)), WriteFirst(0, 1)) == Owned(Owner, Initial(TRIED, 1), [])
  {}

  lemma OwnerLoads()
    ensures var s3 := Owned(Owner, Initial(TRIED, 1), []);
            && Enabled(s3, LoadToMark(0, 2)) && Do(s3, LoadToMark(0, 2)) == Owned(Writing(Running(), Marked), Initial(TRIED, 1), [])
            && Enabled(Do(s3, LoadToMark(0, 2)), Store(0))
            && Do(Do(s3, LoadToMark(0, 2)), Store(0)) == Owned(Marked, Running(), [])
  {}

  lemma OwnerMarks(rest: seq<Step>)
    requires Runs(Owned(Marked, Running(), []), rest)
    ensures var steps := [Arrive(0, TRIED), MakeDirectory(0), WriteFirst(0, 1), LoadToMark(0, 2), Store(0)] + rest;
            Runs(Init(), steps) && After(Init(), steps) == After(Owned(Marked, Running(), []), rest)
  {
    hide Do, Owned, Enabled, Initial, Running;
    OwnerOpens();
    OwnerLoads();
    var s1 := Do(Init(), Arrive(0, TRIED));
    var s2 := Do(s1, MakeDirectory(0));
    var s3 := Do(s2, WriteFirst(0, 1));
    var s4 := Do(s3, LoadToMark(0, 2));
    Prepend(s4, Store(0), rest);
    Prepend(s3, LoadToMark(0, 2), [Store(0)] + rest);
    Prepend(s2, WriteFirst(0, 1), [LoadToMark(0, 2)] + ([Store(0)] + rest));
    Prepend(s1, MakeDirectory(0), [WriteFirst(0, 1)] + ([LoadToMark(0, 2)] + ([Store(0)] + rest)));
    var last := [MakeDirectory(0)] + ([WriteFirst(0, 1)] + ([LoadToMark(0, 2)] + ([Store(0)] + rest)));
    Prepend(Init(), Arrive(0, TRIED), last);
    assert [Arrive(0, TRIED)] + last
        == [Arrive(0, TRIED), MakeDirectory(0), WriteFirst(0, 1), LoadToMark(0, 2), Store(0)] + rest;
  }

  /** The owner about to write SUCCEEDED, and the replay about to write UNKNOWN. */
  function Raced(): Ledger {
    var unknown := Running().(state := Unknown, updatedAt := 4, detail := Some(INCOMPLETE));
    Owned(Writing(Finalized(), Returned(Finalized(), false)), Running(), CallLog())
      .(callers := map[0 := Caller(TRIED, Writing(Finalized(), Returned(Finalized(), false))),
                       1 := Caller(TRIED, Writing(unknown, Returned(unknown, true)))])
  }

  lemma OwnerRuns()
    ensures var s0 := Owned(Marked, Running(), []);
            && Enabled(s0, Run(0, GOOD)) && Do(s0, Run(0, GOOD)) == Owned(Done(Judge(TRIED, GOOD)), Running(), CallLog())
            && Enabled(Do(s0, Run(0, GOOD)), LoadToFinalize(0, 3))
            && Do(Do(s0, Run(0, GOOD)), LoadToFinalize(0, 3))
               == Owned(Writing(Finalized(), Returned(Finalized(), false)), Running(), CallLog())
  {}

  lemma ReplayLoads()
    ensures var s2 := Owned(Writing(Finalized(), Returned(Finalized(), false)), Running(), CallLog());
            && Enabled(s2, Arrive(1, TRIED)) && Enabled(Do(s2, Arrive(1, TRIED)), MakeDirectory(1))
            && Enabled(Do(Do(s2, Arrive(1, TRIED)), MakeDirectory(1)), Collide(1, 4))
            && Do(Do(Do(s2, Arrive(1, TRIED)), MakeDirectory(1)), Collide(1, 4)) == Raced()
  {
    hide Finalized, CallLog;
  }

  lemma OwnerAndReplayLoad(rest: seq<Step>)
    requires Runs(Raced(), rest)
    ensures var steps := [Run(0, GOOD), LoadToFinalize(0, 3), Arrive(1, TRIED), MakeDirectory(1), Collide(1, 4)] + rest;
            && Runs(Owned(Marked, Running(), []), steps)
            && After(Owned(Marked, Running(), []), steps) == After(Raced(), rest)
  {
    hide Do, Owned, Raced, Enabled, Running, Finalized, CallLog;
    OwnerRuns();
    ReplayLoads();
    var s0 := Owned(Marked, Running(), []);
    var s1 := Do(s0, Run(0, GOOD));
    var s2 := Do(s1, LoadToFinalize(0, 3));
    var s3 := Do(s2, Arrive(1, TRIED));
    var s4 := Do(s3, MakeDirectory(1));
    Prepend(s4, Collide(1, 4), rest);
    Prepend(s3, MakeDirectory(1), [Collide(1, 4)] + rest);
    Prepend(s2, Arrive(1, TRIED), [MakeDirectory(1)] + ([Collide(1, 4)] + rest));
    Prepend(s1, LoadToFinalize(0, 3), [Arrive(1, TRIED)] + ([MakeDirectory(1)] + ([Collide(1, 4)] + rest)));
    var last := [LoadToFinalize(0, 3)] + ([Arrive(1, TRIED)] + ([MakeDirectory(1)] + ([Collide(1, 4)] + rest)));
    Prepend(s0, Run(0, GOOD), last);
    assert [Run(0, GOOD)] + last
        == [Run(0, GOOD), LoadToFinalize(0, 3), Arrive(1, TRIED), MakeDirectory(1), Collide(1, 4)] + rest;
  }

  lemma BothStore()
    ensures Enabled(Raced(), Store(1))
    ensures var s := Do(Raced(), Store(1));
            && Says(s, "r", Unknown) && s.callers.Keys == {0, 1} && s.callers[1].phase.Returned?
            && "r" in s.dirs && s.dirs["r"] == Some(s.callers[1].phase.record)
            && Rival(s, "r", Unknown, 0) && Enabled(s, Store(0)) && Says(Do(s, Store(0)), "r", State.Succeeded)
  {}

  /**
   A run without a crash from the empty ledger: the replay has been told UNKNOWN, the
   record says so, and the owner's next write turns it into SUCCEEDED.
   */
  lemma LateFinalizeBuriesUnknown()
    ensures Runs(Init(), RacingSteps())
    ensures var s := After(Init(), RacingSteps());
            && Says(s, "r", Unknown) && s.callers.Keys == {0, 1} && s.callers[1].phase.Returned?
            && "r" in s.dirs && s.dirs["r"] == Some(s.callers[1].phase.record)
            && Rival(s, "r", Unknown, 0) && Enabled(s, Store(0)) && Says(Do(s, Store(0)), "r", State.Succeeded)
  {
    hide Do, Raced, Owned, Enabled, Says, Rival;
    BothStore();
    OneStep(Raced(), Store(1));
    OwnerAndReplayLoad([Store(1)]);
    OwnerMarks([Run(0, GOOD), LoadToFinalize(0, 3), Arrive(1, TRIED), MakeDirectory(1), Collide(1, 4)] + [Store(1)]);
    assert [Arrive(0, TRIED), MakeDirectory(0), WriteFirst(0, 1), LoadToMark(0, 2), Store(0)]
         + ([Run(0, GOOD), LoadToFinalize(0, 3), Arrive(1, TRIED), MakeDirectory(1), Collide(1, 4)] + [Store(1)])
        == RacingSteps();
  }
}
