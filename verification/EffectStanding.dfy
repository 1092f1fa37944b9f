/**
 Which finished records of the journal stand for good, which overtaken owners can
 still return, and which replays agree with the original: each exactly, by a test on
 the writes that are pending.
 */
module EffectStanding {
  import opened Values
  import opened JournalDisk
  import opened EffectProtocol
  import opened EffectInvariant
  import opened EffectSteps
  import opened EffectTheorems
  import opened EffectOverlap

  // ----------------------------------------------------- records that stand

  predicate Stands(s: State, id: string, record: Record) {
    id in s.disk.records && s.disk.records[id] == record && Terminal(record.status)
  }

  /** A caller that has loaded this identity and is about to write something else. */
  predicate RivalCaller(s: State, id: string, record: Record, c: nat) {
    c in s.callers && IdOf(s.callers[c].request) == id && s.callers[c].phase.Writing? && s.callers[c].phase.next != record
  }

  predicate RivalSweep(s: State, id: string, record: Record, k: nat) {
    k in s.sweeps && s.sweeps[k].executionId == id && s.sweeps[k] != record
  }

  ghost predicate Unrivalled(s: State, id: string, record: Record) {
    (forall c :: !RivalCaller(s, id, record, c)) && (forall k :: !RivalSweep(s, id, record, k))
  }

  /** A write of the identity, if it comes now, writes the record that is there. */
  lemma WriteIsTheSame(s: State, step: Step, id: string, record: Record)
    requires Inv(s) && Enabled(s, step) && Stands(s, id, record) && Unrivalled(s, id, record)
    ensures Stands(Do(s, step), id, record)
  {
    hide IdOf, Inv;
    if step.Store? {
      assert !RivalCaller(s, id, record, step.c);
    } else if step.SweepStore? {
      assert !RivalSweep(s, id, record, step.k);
    } else {
      hide Do;
    }
    if !Writes(s, step, id) {
      RecordStays(s, step, id);
    }
  }

  /** Nobody starts to write over a finished record. */
  lemma NoNewRivalCaller(s: State, step: Step, id: string, record: Record, c: nat)
    requires Inv(s) && Enabled(s, step) && Stands(s, id, record) && !RivalCaller(s, id, record, c)
    ensures !RivalCaller(Do(s, step), id, record, c)
  {
    hide Inv, Do, IdOf, Enabled;
    if c in Do(s, step).callers {
      if c == ActorOf(step) {
        if step.Load? {
          LoadMakesNoRival(s, step, id, record);
        } else {
          NoWritingOtherwise(s, step, c);
        }
      } else {
        OnlyTheActorMoves(s, step, c);
      }
    }
  }

  lemma LoadMakesNoRival(s: State, step: Step, id: string, record: Record)
    requires Enabled(s, step) && step.Load? && Stands(s, id, record)
    ensures !RivalCaller(Do(s, step), id, record, step.c)
  {
    hide IdOf, DoLoad;
    if IdOf(s.callers[step.c].request) == id {
      LoadOfTerminal(s, step.c, step.now);
    } else {
      LoadKeepsRequest(s, step.c, step.now);
    }
  }

  lemma LoadKeepsRequest(s: State, c: nat, now: int)
    requires Enabled(s, Load(c, now))
    ensures c in DoLoad(s, c, now).callers && DoLoad(s, c, now).callers[c].request == s.callers[c].request
  {
    hide IdOf, PlanOf, Transition, AfterRecord, AfterRefusal;
  }

  lemma NoNewRivalSweep(s: State, step: Step, id: string, record: Record, k: nat)
    requires Inv(s) && Enabled(s, step) && Stands(s, id, record) && !RivalSweep(s, id, record, k)
    ensures !RivalSweep(Do(s, step), id, record, k)
  {
    hide Inv, IdOf;
    if step.SweepLoad? {
      hide Do;
      SweepLoadMakesNoRival(s, step, id, record, k);
    } else if !step.SweepStore? && !step.SweepStop? {
      hide Do, Enabled;
      SweepsSame(s, step);
    }
  }

  lemma SweepLoadMakesNoRival(s: State, step: Step, id: string, record: Record, k: nat)
    requires Inv(s) && Enabled(s, step) && step.SweepLoad? && Stands(s, id, record) && !RivalSweep(s, id, record, k)
    ensures !RivalSweep(Do(s, step), id, record, k)
  {
    hide IdOf, SweepsOk, CallersOk, VerdictsFinal, CallsOk;
    assert RecordOk(s.disk.records[step.id], s.callers[s.identityWinner[step.id]].request);
  }

  lemma StepKeepsStanding(s: State, step: Step, id: string, record: Record)
    requires Inv(s) && Enabled(s, step) && Stands(s, id, record) && Unrivalled(s, id, record)
    ensures Stands(Do(s, step), id, record) && Unrivalled(Do(s, step), id, record)
  {
    hide Inv, Enabled, Do, Stands, RivalCaller, RivalSweep;
    WriteIsTheSame(s, step, id, record);
    forall c ensures !RivalCaller(Do(s, step), id, record, c) {
      NoNewRivalCaller(s, step, id, record, c);
    }
    forall k ensures !RivalSweep(Do(s, step), id, record, k) {
      NoNewRivalSweep(s, step, id, record, k);
    }
  }

  lemma {:induction false} RunsKeepStanding(s: State, steps: seq<Step>, id: string, record: Record)
    requires Inv(s) && Runs(s, steps) && Stands(s, id, record) && Unrivalled(s, id, record)
    ensures Stands(After(s, steps), id, record)
    decreases |steps|
  {
    hide Inv, Enabled, Do, Stands, Unrivalled;
    if steps != [] {
      StepKeeps(s, steps[0]);
      StepKeepsStanding(s, steps[0], id, record);
      RunsKeepStanding(Do(s, steps[0]), steps[1..], id, record);
    }
  }

  ghost predicate StandsForGood(s: State, id: string, record: Record) {
    forall steps :: Runs(s, steps) ==> Stands(After(s, steps), id, record)
  }

  lemma OneStep(s: State, step: Step)
    requires Enabled(s, step)
    ensures Runs(s, [step]) && After(s, [step]) == Do(s, step)
  {
    hide Enabled, Do;
    assert [step][1..] == [] && Runs(Do(s, step), []);
  }

  lemma RivalEnds(s: State, id: string, record: Record, step: Step)
    requires step.Store? || step.SweepStore?
    requires if step.Store? then RivalCaller(s, id, record, step.c) else RivalSweep(s, id, record, step.k)
    ensures Enabled(s, step) && !Stands(Do(s, step), id, record)
  {
    hide IdOf;
  }

  /**
   A finished record stays on disk in every continuation if and only if no transition
   and no sweep has loaded it before and is still about to write something else.
   */
  lemma FinishedStands(s: State, id: string, record: Record)
    requires Inv(s) && Stands(s, id, record)
    ensures StandsForGood(s, id, record) <==> Unrivalled(s, id, record)
  {
    hide Inv, Enabled, Do, Stands, RivalCaller, RivalSweep;
    if Unrivalled(s, id, record) {
      forall steps | Runs(s, steps) ensures Stands(After(s, steps), id, record) {
        RunsKeepStanding(s, steps, id, record);
      }
    } else if c :| RivalCaller(s, id, record, c) {
      RivalEnds(s, id, record, Store(c));
      OneStep(s, Store(c));
    } else {
      var k :| RivalSweep(s, id, record, k);
      RivalEnds(s, id, record, SweepStore(k));
      OneStep(s, SweepStore(k));
    }
  }

  // --------------------------------------------------------- all of the disk

  /** A record that has left CLAIMED never goes back. */
  lemma StepKeepsBegun(s: State, step: Step, id: string)
    requires Inv(s) && Enabled(s, step) && id in s.disk.records && !s.disk.records[id].status.Claimed?
    ensures id in Do(s, step).disk.records && !Do(s, step).disk.records[id].status.Claimed?
  {
    hide Inv, IdOf, CallerOk;
    if step.Store? {
      CallerFact(s, step.c);
      WriterNext(s, step.c);
    } else if step.SweepStore? {
      SweepFact(s, step.k);
    } else {
      hide Do;
    }
    if !Writes(s, step, id) {
      RecordStays(s, step, id);
    }
  }

  lemma {:induction false} RunsKeepBegun(s: State, steps: seq<Step>, id: string)
    requires Inv(s) && Runs(s, steps) && id in s.disk.records && !s.disk.records[id].status.Claimed?
    ensures id in After(s, steps).disk.records && !After(s, steps).disk.records[id].status.Claimed?
    decreases |steps|
  {
    hide Inv, Enabled, Do;
    if steps != [] {
      StepKeeps(s, steps[0]);
      StepKeepsBegun(s, steps[0], id);
      RunsKeepBegun(Do(s, steps[0]), steps[1..], id);
    }
  }

  ghost predicate EvolvesForGood(s: State) {
    forall steps :: Runs(s, steps) ==> Evolves(s.disk, After(s, steps).disk)
  }

  ghost predicate AllUnrivalled(s: State) {
    forall id :: id in s.disk.records && Terminal(s.disk.records[id].status) ==> Unrivalled(s, id, s.disk.records[id])
  }

  lemma RunEvolves(s: State, steps: seq<Step>)
    requires Inv(s) && Runs(s, steps) && AllUnrivalled(s)
    ensures Evolves(s.disk, After(s, steps).disk)
  {
    hide Inv, Enabled, Do, Unrivalled;
    var t := After(s, steps);
    PermitsAndIdentitiesLast(s, steps);
    forall id | id in s.disk.records ensures RecordEvolves(s.disk.records[id], t.disk.records[id]) {
      if Terminal(s.disk.records[id].status) {
        RunsKeepStanding(s, steps, id, s.disk.records[id]);
      } else if !s.disk.records[id].status.Claimed? {
        RunsKeepBegun(s, steps, id);
      }
    }
  }

  /**
   The whole disk only moves forward from here on, whatever happens (no rank falls, no
   finished record changes, no permit goes), if and only if no write is pending over a
   finished record that differs from it.
   */
  lemma DiskEvolvesForGood(s: State)
    requires Inv(s)
    ensures EvolvesForGood(s) <==> AllUnrivalled(s)
  {
    hide Inv, Enabled, Do, Unrivalled;
    if AllUnrivalled(s) {
      forall steps | Runs(s, steps) ensures Evolves(s.disk, After(s, steps).disk) {
        RunEvolves(s, steps);
      }
    } else {
      var id :| id in s.disk.records && Terminal(s.disk.records[id].status) && !Unrivalled(s, id, s.disk.records[id]);
      FinishedStands(s, id, s.disk.records[id]);
      var steps :| Runs(s, steps) && !Stands(After(s, steps), id, s.disk.records[id]);
      assert !Evolves(s.disk, After(s, steps).disk);
    }
  }

  /**
   If so far no two transitions of one identity overlapped, every finished record
   stands for good, whatever happens afterwards.
   */
  lemma FinishedStandsAfterSeparateRuns(steps: seq<Step>, id: string, record: Record)
    requires Runs(Init(), steps) && SeparateRun(Init(), steps) && Stands(After(Init(), steps), id, record)
    ensures StandsForGood(After(Init(), steps), id, record)
  {
    hide Inv, Enabled, Do, NoOverlap, IdOf;
    InitHolds();
    SeparateRunsAreFresh(Init(), steps);
    var s := After(Init(), steps);
    forall c ensures !RivalCaller(s, id, record, c) {
      assert c in s.callers ==> CallerFresh(s, s.callers[c]);
    }
    forall k ensures !RivalSweep(s, id, record, k) {
      assert k in s.sweeps ==> SweepFresh(s, s.sweeps[k]);
    }
    hide Stands, StandsForGood;
    FinishedStands(s, id, record);
  }

  // -------------------------------------------------------- overtaken owners

  /** The caller published the identity, is still at work, and its record says UNKNOWN. */
  predicate Overtaken(s: State, c: nat) {
    && c in s.callers && Owns(s.callers[c].phase)
    && IdOf(s.callers[c].request) in s.disk.records
    && s.disk.records[IdOf(s.callers[c].request)].status.Unknown?
  }

  /** It loaded the record before and is still about to write RUNNING or a verdict. */
  predicate StillWrites(s: State, c: nat) {
    c in s.callers && s.callers[c].phase.Writing? && !s.callers[c].phase.next.status.Unknown?
  }

  /** What remains of an overtaken owner that will not return. */
  predicate Lost(s: State, c: nat) {
    && c in s.callers
    && IdOf(s.callers[c].request) in s.identityWinner && s.identityWinner[IdOf(s.callers[c].request)] == c
    && IdOf(s.callers[c].request) in s.disk.records
    && s.disk.records[IdOf(s.callers[c].request)].status.Unknown?
    && (s.callers[c].phase.Raised? || s.callers[c].phase.Crashed? || (Owns(s.callers[c].phase) && !StillWrites(s, c)))
  }

  /** Only the owner and sweeps write its record. */
  lemma StoreSparesTheLost(s: State, d: nat, c: nat)
    requires Enabled(s, Store(d)) && CallerOk(s, d, s.callers[d]) && Lost(s, c)
    ensures var id := IdOf(s.callers[c].request);
            id in DoStore(s, d).disk.records && DoStore(s, d).disk.records[id].status.Unknown?
  {
    hide IdOf, CallerOk, RecordOk;
    WriterFacts(s, d);
    hide WritingOk;
  }

  lemma SweepSparesTheLost(s: State, k: nat, c: nat)
    requires k in s.sweeps && s.sweeps[k].status.Unknown? && Lost(s, c)
    ensures var id := IdOf(s.callers[c].request);
            id in DoSweepStore(s, k).disk.records && DoSweepStore(s, k).disk.records[id].status.Unknown?
  {
    hide IdOf;
  }

  lemma LostRecordStays(s: State, step: Step, c: nat)
    requires Inv(s) && Enabled(s, step) && Lost(s, c)
    ensures var id := IdOf(s.callers[c].request);
            id in Do(s, step).disk.records && Do(s, step).disk.records[id].status.Unknown?
  {
    hide Inv, IdOf, CallerOk, DoStore, DoSweepStore;
    if step.Store? {
      CallerFact(s, step.c);
      StoreSparesTheLost(s, step.c, c);
    } else if step.SweepStore? {
      SweepFact(s, step.k);
      SweepSparesTheLost(s, step.k, c);
    } else {
      hide Do;
      RecordStays(s, step, IdOf(s.callers[c].request));
    }
  }

  lemma SweepFact(s: State, k: nat)
    requires Inv(s) && k in s.sweeps
    ensures s.sweeps[k].status.Unknown?
  {
    hide RecordsOk, CallersOk, VerdictsFinal, CallsOk, RecordOk;
    assert SweepOk(s, s.sweeps[k]);
  }

  lemma LostLoad(s: State, c: nat, now: int)
    requires Enabled(s, Load(c, now)) && Lost(s, c) && !s.callers[c].phase.Declined?
    ensures var p := DoLoad(s, c, now).callers[c].phase;
            p.Raised? || p.Handling?
  {
    hide IdOf, CommandOf, Updated;
  }

  lemma LostMoves(s: State, step: Step, c: nat)
    requires Inv(s) && Enabled(s, step) && Lost(s, c) && ActorOf(step) == c && !step.Load?
    ensures c in Do(s, step).callers
    ensures var p := Do(s, step).callers[c].phase;
            p.Raised? || p.Crashed? || (Owns(p) && !p.Writing?)
  {
    hide Inv;
    CallerFact(s, c);
    hide CallerOk;
    if step.Store? {
      hide IdOf;
      LostStore(s, c);
    } else {
      LostPhase(s, c);
      hide IdOf, Admitted;
    }
  }

  lemma LostPhase(s: State, c: nat)
    requires c in s.callers && CallerOk(s, c, s.callers[c])
    ensures !s.callers[c].phase.Declined? && !s.callers[c].phase.Fetching?
  {
    hide IdOf, RecordOk, Admitted, PermitOk, WritingOk, ReturnedOk, OwnerOk;
  }

  lemma LostStore(s: State, c: nat)
    requires Enabled(s, Store(c)) && CallerOk(s, c, s.callers[c]) && s.callers[c].phase.next.status.Unknown?
    ensures var p := DoStore(s, c).callers[c].phase; p.Raised? || (Owns(p) && !p.Writing?)
  {
    hide IdOf, CallerOk, RecordOk;
    WriterFacts(s, c);
    AfterIsNotFetching(s, c);
  }

  lemma AfterIsNotFetching(s: State, c: nat)
    requires c in s.callers && CallerOk(s, c, s.callers[c]) && s.callers[c].phase.Writing?
    ensures !s.callers[c].phase.after.Fetching?
  {
    hide IdOf, RecordOk, Admitted, PermitOk, WritingOk, ReturnedOk, OwnerOk;
  }

  lemma StepKeepsLost(s: State, step: Step, c: nat)
    requires Inv(s) && Enabled(s, step) && Lost(s, c)
    ensures Lost(Do(s, step), c)
  {
    hide Inv, Do, Enabled, IdOf;
    LostRecordStays(s, step, c);
    StepKeepsHistory(s, step);
    if ActorOf(step) == c {
      if step.Load? {
        LostLoads(s, step, c);
      } else {
        LostMoves(s, step, c);
      }
    } else {
      OnlyTheActorMoves(s, step, c);
    }
  }

  lemma LostLoads(s: State, step: Step, c: nat)
    requires Inv(s) && Enabled(s, step) && Lost(s, c) && ActorOf(step) == c && step.Load?
    ensures c in Do(s, step).callers && (Do(s, step).callers[c].phase.Raised? || Do(s, step).callers[c].phase.Handling?)
  {
    hide Inv, IdOf, DoLoad;
    CallerFact(s, c);
    hide CallerOk;
    LostPhase(s, c);
    LostLoad(s, c, step.now);
    LoadKeepsRequest(s, c, step.now);
  }

  lemma {:induction false} RunsKeepLost(s: State, steps: seq<Step>, c: nat)
    requires Inv(s) && Runs(s, steps) && Lost(s, c)
    ensures Lost(After(s, steps), c)
    decreases |steps|
  {
    hide Inv, Enabled, Do, Lost;
    if steps != [] {
      StepKeeps(s, steps[0]);
      StepKeepsLost(s, steps[0], c);
      RunsKeepLost(Do(s, steps[0]), steps[1..], c);
    }
  }

  ghost predicate MayReturn(s: State, c: nat) {
    exists steps :: Runs(s, steps) && At(After(s, steps), c, (p: Phase) => p.Returned?)
  }

  function SuccessFor(q: Request): Output {
    Output(CommandOf(q), "", "", 0, 0, 0)
  }

  lemma WriterOfVerdictReturns(s: State, c: nat)
    requires Inv(s) && StillWrites(s, c) && HasVerdict(s.callers[c].phase.next)
    ensures MayReturn(s, c)
  {
    hide Inv, IdOf;
    CallerFact(s, c);
    hide CallerOk;
    WriterFacts(s, c);
    OneStep(s, Store(c));
    assert At(After(s, [Store(c)]), c, (p: Phase) => p.Returned?);
  }

  lemma CallFinishes(s: State, c: nat, o: Output)
    requires At(s, c, (p: Phase) => p.Armed?) && s.callers[c].request.decision.allow
    ensures Enabled(s, Call(c, Some(o)))
    ensures var t := Do(s, Call(c, Some(o)));
            t.disk == s.disk && c in t.callers && t.callers[c] == Caller(s.callers[c].request, Finished(o))
  {}

  lemma LoadDecides(s: State, c: nat)
    requires c in s.callers && s.callers[c].phase == Finished(SuccessFor(s.callers[c].request))
    requires IdOf(s.callers[c].request) in s.disk.records && s.disk.records[IdOf(s.callers[c].request)].status.Running?
    ensures Enabled(s, Load(c, 0))
    ensures var t := Do(s, Load(c, 0)); c in t.callers && t.callers[c].phase.Writing? && t.callers[c].phase.after.Returned?
  {
    hide IdOf, CommandOf, Updated, Keep;
  }

  lemma StoreReturns(s: State, c: nat)
    requires c in s.callers && s.callers[c].phase.Writing? && s.callers[c].phase.after.Returned?
    ensures Enabled(s, Store(c)) && At(Do(s, Store(c)), c, (p: Phase) => p.Returned?)
  {
    hide IdOf;
  }

  /** From RUNNING on disk, an owner at the gate can get its success recorded and return. */
  lemma ArmedReturns(s: State, c: nat)
    requires At(s, c, (p: Phase) => p.Armed?) && s.callers[c].request.decision.allow
    requires IdOf(s.callers[c].request) in s.disk.records && s.disk.records[IdOf(s.callers[c].request)].status.Running?
    ensures MayReturn(s, c)
  {
    hide Do, Enabled, IdOf, SuccessFor;
    var o := SuccessFor(s.callers[c].request);
    CallFinishes(s, c, o);
    var t := Do(s, Call(c, Some(o)));
    LoadDecides(t, c);
    var u := Do(t, Load(c, 0));
    StoreReturns(u, c);
    OneStep(u, Store(c));
    Prepend(t, Load(c, 0), [Store(c)]);
    Prepend(s, Call(c, Some(o)), [Load(c, 0)] + [Store(c)]);
    assert At(After(s, [Call(c, Some(o))] + ([Load(c, 0)] + [Store(c)])), c, (p: Phase) => p.Returned?);
  }

  lemma StoreArms(s: State, c: nat)
    requires StillWrites(s, c) && s.callers[c].phase.next.status.Running? && CallerOk(s, c, s.callers[c])
    ensures Enabled(s, Store(c))
    ensures var t := Do(s, Store(c));
            && At(t, c, (p: Phase) => p.Armed?) && t.callers[c].request == s.callers[c].request
            && IdOf(s.callers[c].request) in t.disk.records
            && t.disk.records[IdOf(s.callers[c].request)].status.Running?
  {
    hide IdOf, CallerOk, RecordOk;
    WriterFacts(s, c);
  }

  lemma WriterOfRunningReturns(s: State, c: nat)
    requires Inv(s) && StillWrites(s, c) && s.callers[c].phase.next.status.Running?
    ensures MayReturn(s, c)
  {
    hide Inv, IdOf, Do, Enabled, CallerOk;
    CallerFact(s, c);
    WriterIsAdmitted(s, c);
    StoreArms(s, c);
    var t := Do(s, Store(c));
    ArmedReturns(t, c);
    var rest :| Runs(t, rest) && At(After(t, rest), c, (p: Phase) => p.Returned?);
    Prepend(s, Store(c), rest);
  }

  lemma WriterIsAdmitted(s: State, c: nat)
    requires c in s.callers && CallerOk(s, c, s.callers[c]) && s.callers[c].phase.Writing?
    ensures s.callers[c].request.decision.allow
  {
    hide IdOf, RecordOk, PermitOk, WritingOk, ReturnedOk, OwnerOk, Matches;
  }

  /**
   An owner that finds itself overtaken, its record being UNKNOWN, can still return in
   some continuation if and only if it had loaded the record before and is still about
   to write RUNNING or a verdict. Otherwise it ends with an exception, or crashes.
   */
  lemma OvertakenOwnerReturns(s: State, c: nat)
    requires Inv(s) && Overtaken(s, c)
    ensures MayReturn(s, c) <==> StillWrites(s, c)
    ensures !StillWrites(s, c) ==> forall steps :: Runs(s, steps) ==> Lost(After(s, steps), c)
  {
    hide Inv, Enabled, Do, IdOf;
    CallerFact(s, c);
    if StillWrites(s, c) {
      WriterNext(s, c);
      if HasVerdict(s.callers[c].phase.next) {
        WriterOfVerdictReturns(s, c);
      } else {
        WriterOfRunningReturns(s, c);
      }
    } else {
      OwnerIsWinner(s, c);
      forall steps | Runs(s, steps) ensures Lost(After(s, steps), c) {
        RunsKeepLost(s, steps, c);
      }
    }
  }

  lemma WriterNext(s: State, c: nat)
    requires c in s.callers && CallerOk(s, c, s.callers[c]) && s.callers[c].phase.Writing?
    ensures !s.callers[c].phase.next.status.Claimed?
  {
    hide CallerOk, IdOf, RecordOk;
    WriterFacts(s, c);
  }

  lemma OwnerIsWinner(s: State, c: nat)
    requires c in s.callers && CallerOk(s, c, s.callers[c]) && Owns(s.callers[c].phase)
    ensures OwnerOk(s, c, s.callers[c].request)
  {
    hide IdOf, RecordOk, Admitted, PermitOk, WritingOk, ReturnedOk;
  }

  // ---------------------------------------------------------------- replays

  /** Every identity was published for a request that passed the claim's checks. */
  ghost predicate WinnersOk(s: State) {
    forall id :: id in s.identityWinner ==>
      s.identityWinner[id] in s.callers && ClaimOk(s.callers[s.identityWinner[id]].request)
  }

  lemma NewWinner(s: State, step: Step, id: string)
    requires Enabled(s, step) && id in Do(s, step).identityWinner && id !in s.identityWinner
    ensures step.Publish? && Do(s, step).identityWinner[id] == step.c
  {
    hide IdOf, RunKey, PermitOf, Admitted, ClaimOk, Validates, RawId, ValidateId, FreshRecord, Rebuild, PlanOf, AfterRecord,
         Transition, NameTaken, AfterRefusal;
  }

  lemma StagedIsClaimOk(s: State, c: nat)
    requires c in s.callers && CallerOk(s, c, s.callers[c]) && s.callers[c].phase.Staged?
    ensures ClaimOk(s.callers[c].request)
  {
    hide IdOf, RecordOk, Admitted, PermitOk, WritingOk, ReturnedOk, OwnerOk;
  }

  lemma StepKeepsWinners(s: State, step: Step)
    requires Inv(s) && Enabled(s, step) && WinnersOk(s)
    ensures WinnersOk(Do(s, step))
  {
    hide Inv, Do, ClaimOk, CallerOk;
    StepKeepsHistory(s, step);
    forall id | id in Do(s, step).identityWinner
      ensures Do(s, step).identityWinner[id] in Do(s, step).callers
      ensures ClaimOk(Do(s, step).callers[Do(s, step).identityWinner[id]].request)
    {
      if id !in s.identityWinner {
        NewWinner(s, step, id);
        CallerFact(s, step.c);
        StagedIsClaimOk(s, step.c);
      }
    }
  }

  lemma {:induction false} RunsKeepWinners(s: State, steps: seq<Step>)
    requires Inv(s) && WinnersOk(s) && Runs(s, steps)
    ensures WinnersOk(After(s, steps))
    decreases |steps|
  {
    hide Inv, Enabled, Do, WinnersOk;
    if steps != [] {
      StepKeeps(s, steps[0]);
      StepKeepsWinners(s, steps[0]);
      RunsKeepWinners(Do(s, steps[0]), steps[1..]);
    }
  }

  /** A caller that is answered with a replay of the identity and was not yet at that time. */
  predicate LaterReplay(s: State, t: State, id: string, d: nat) {
    && d in t.callers && IdOf(t.callers[d].request) == id
    && t.callers[d].phase.Returned? && t.callers[d].phase.reply.replayed
    && !(d in s.callers && s.callers[d].phase.Returned?)
  }

  ghost predicate ReplaysGet(s: State, t: State, id: string, record: Record) {
    forall d :: LaterReplay(s, t, id, d) ==>
      t.callers[d].phase.reply.record == record && t.callers[d].phase.reply.result == Rebuild(record.execution)
  }

  /** A replay is answered from the record that is on disk at that moment. */
  lemma ReplayReadsDisk(s: State, step: Step, d: nat)
    requires Inv(s) && Enabled(s, step) && ActorOf(step) == d && d in Do(s, step).callers
    requires Do(s, step).callers[d].phase.Returned? && Do(s, step).callers[d].phase.reply.replayed
    ensures var id := IdOf(Do(s, step).callers[d].request);
            id in s.disk.records && s.disk.records[id] == Do(s, step).callers[d].phase.reply.record
            && Do(s, step).callers[d].phase.reply.result == Rebuild(s.disk.records[id].execution)
  {
    hide Inv, IdOf;
    if step.Store? {
      hide Do;
      StoreIsNoReplay(s, d);
    } else if step.Load? {
      hide Do;
      LoadIsNoReplay(s, d, step.now);
    } else if step.Fetch? {
      hide Do;
      CallerFact(s, d);
      hide CallerOk;
      LostPhase(s, d);
    } else if step.Poll? || step.ReadPermitted? {
      hide Validates, Rebuild, RawId, ValidateId;
    } else {
      hide Do, Enabled;
      NoReply(s, step, d);
    }
  }

  lemma StoreIsNoReplay(s: State, c: nat)
    requires Inv(s) && Enabled(s, Store(c))
    ensures var p := Do(s, Store(c)).callers[c].phase; !(p.Returned? && p.reply.replayed)
  {
    hide Inv, IdOf, RecordOk;
    CallerFact(s, c);
    hide CallerOk;
    WriterFacts(s, c);
  }

  lemma LoadIsNoReplay(s: State, c: nat, now: int)
    requires Inv(s) && Enabled(s, Load(c, now))
    ensures c in Do(s, Load(c, now)).callers
    ensures var p := Do(s, Load(c, now)).callers[c].phase; !(p.Returned? && p.reply.replayed)
  {
    hide Inv, IdOf, CommandOf, Updated, Transition, Keep;
  }

  lemma StepKeepsReplays(early: State, s: State, step: Step, id: string, record: Record)
    requires Inv(s) && Enabled(s, step) && Stands(s, id, record) && ReplaysGet(early, s, id, record)
    ensures ReplaysGet(early, Do(s, step), id, record)
  {
    hide Inv, Do, Enabled, IdOf;
    var t := Do(s, step);
    forall d | LaterReplay(early, t, id, d)
      ensures t.callers[d].phase.reply.record == record && t.callers[d].phase.reply.result == Rebuild(record.execution)
    {
      if d == ActorOf(step) {
        ReplayReadsDisk(s, step, d);
      } else {
        OnlyTheActorMoves(s, step, d);
        assert LaterReplay(early, s, id, d);
      }
    }
  }

  lemma {:induction false} RunsKeepReplays(early: State, s: State, steps: seq<Step>, id: string, record: Record)
    requires Inv(s) && Runs(s, steps) && Stands(s, id, record) && Unrivalled(s, id, record) && ReplaysGet(early, s, id, record)
    ensures ReplaysGet(early, After(s, steps), id, record)
    decreases |steps|
  {
    hide Inv, Enabled, Do, Stands, Unrivalled, ReplaysGet;
    if steps != [] {
      StepKeeps(s, steps[0]);
      StepKeepsStanding(s, steps[0], id, record);
      StepKeepsReplays(early, s, steps[0], id, record);
      RunsKeepReplays(early, Do(s, steps[0]), steps[1..], id, record);
    }
  }

  /** An unbound request for the same identity. */
  function Again(q: Request): Request {
    Plain(RawId(q), IncidentOf(q), ComponentOf(q), ActionOf(q), CommandOf(q), JournalDisk.Decision(true, ComponentOf(q), ActionOf(q)))
  }

  function AgainSteps(d: nat, q: Request): seq<Step> {
    [Arrive(d, Again(q)), Admit(d), Stage(d, 0), Publish(d), Poll(d)]
  }

  lemma AgainArrives(s: State, d: nat, q: Request)
    requires d !in s.callers && ClaimOk(q)
    ensures var t := Do(s, Arrive(d, Again(q)));
            && Enabled(s, Arrive(d, Again(q))) && Enabled(t, Admit(d))
            && var u := Do(t, Admit(d));
               d in u.callers && u.callers[d] == Caller(Again(q), Ready) && u.disk == s.disk && ClaimOk(Again(q))
  {
    AgainIsOk(q);
    hide CommandOf, IncidentOf, ComponentOf, ActionOf, RawId, ClaimOk;
  }

  lemma AgainIsOk(q: Request)
    requires ClaimOk(q)
    ensures ClaimOk(Again(q))
  {
    hide ValidateId, Strip;
  }

  lemma StageStages(s: State, d: nat, q: Request)
    requires d in s.callers && s.callers[d] == Caller(q, Ready) && ClaimOk(q)
    ensures Enabled(s, Stage(d, 0))
    ensures var t := Do(s, Stage(d, 0));
            && d in t.callers && t.callers[d] == Caller(q, Staged) && d in t.disk.staging
            && t.disk.records == s.disk.records
  {
    hide ClaimOk, FreshRecord;
  }

  lemma AgainStages(s: State, d: nat, q: Request)
    requires d !in s.callers && ClaimOk(q)
    ensures var t := Do(s, Arrive(d, Again(q)));
            && Enabled(s, Arrive(d, Again(q))) && Enabled(t, Admit(d)) && Enabled(Do(t, Admit(d)), Stage(d, 0))
            && var u := Do(Do(t, Admit(d)), Stage(d, 0));
               && d in u.callers && u.callers[d] == Caller(Again(q), Staged) && d in u.disk.staging
               && u.disk.records == s.disk.records
  {
    hide Do, Enabled, ClaimOk, Again;
    AgainArrives(s, d, q);
    StageStages(Do(Do(s, Arrive(d, Again(q))), Admit(d)), d, Again(q));
  }

  lemma AgainIsAnswered(s: State, d: nat, q: Request)
    requires d in s.callers && s.callers[d] == Caller(Again(q), Staged) && d in s.disk.staging
    requires IdOf(q) in s.disk.records && Terminal(s.disk.records[IdOf(q)].status)
    ensures var t := Do(s, Publish(d));
            && Enabled(s, Publish(d)) && Enabled(t, Poll(d))
            && var u := Do(t, Poll(d));
               && d in u.callers && u.callers[d].request == Again(q) && IdOf(Again(q)) == IdOf(q)
               && u.callers[d].phase.Returned? && u.callers[d].phase.reply.replayed
               && u.callers[d].phase.reply.record == s.disk.records[IdOf(q)]
  {
    assert IdOf(Again(q)) == IdOf(q);
    hide IdOf, CommandOf, IncidentOf, ComponentOf, ActionOf, RawId, Rebuild;
  }

  /** Whatever finished record is on disk, a newcomer can be answered with it. */
  lemma NewcomerReads(s: State, d: nat, q: Request)
    requires d !in s.callers && ClaimOk(q) && IdOf(q) in s.disk.records && Terminal(s.disk.records[IdOf(q)].status)
    ensures Runs(s, AgainSteps(d, q))
    ensures var t := After(s, AgainSteps(d, q));
            && d in t.callers && IdOf(t.callers[d].request) == IdOf(q)
            && t.callers[d].phase.Returned? && t.callers[d].phase.reply.replayed
            && t.callers[d].phase.reply.record == s.disk.records[IdOf(q)]
  {
    AgainStages(s, d, q);
    hide Do, Enabled, IdOf, ClaimOk, Again;
    var t1 := Do(s, Arrive(d, Again(q)));
    var t2 := Do(t1, Admit(d));
    var t3 := Do(t2, Stage(d, 0));
    AgainIsAnswered(t3, d, q);
    var t4 := Do(t3, Publish(d));
    OneStep(t4, Poll(d));
    Prepend(t3, Publish(d), [Poll(d)]);
    Prepend(t2, Stage(d, 0), [Publish(d)] + [Poll(d)]);
    Prepend(t1, Admit(d), [Stage(d, 0)] + ([Publish(d)] + [Poll(d)]));
    Prepend(s, Arrive(d, Again(q)), [Admit(d)] + ([Stage(d, 0)] + ([Publish(d)] + [Poll(d)])));
    assert [Arrive(d, Again(q))] + ([Admit(d)] + ([Stage(d, 0)] + ([Publish(d)] + [Poll(d)]))) == AgainSteps(d, q);
  }

  ghost predicate ReplaysAgree(s: State, id: string, record: Record) {
    forall steps :: Runs(s, steps) ==> ReplaysGet(s, After(s, steps), id, record)
  }

  /** The winner of the identity has returned this very record, by executing. */
  predicate Answered(s: State, w: nat, id: string, record: Record) {
    && w in s.callers && IdOf(s.callers[w].request) == id && s.callers[w].phase.Returned?
    && !s.callers[w].phase.reply.replayed && s.callers[w].phase.reply.record == record
  }

  lemma AnsweredFacts(s: State, w: nat, id: string, record: Record)
    requires Inv(s) && Answered(s, w, id, record)
    ensures OwnerOk(s, w, s.callers[w].request) && HasVerdict(record)
    ensures s.callers[w].phase.reply.result.Some? && record.execution == Some(Keep(s.callers[w].phase.reply.result.value))
  {
    hide Inv, IdOf, RecordOk, Admitted, PermitOk, WritingOk;
    CallerFact(s, w);
  }

  /** Once the winner has returned, only sweeps can still write its identity. */
  lemma NobodyElseWrites(s: State, w: nat, id: string, record: Record, c: nat)
    requires Inv(s) && Answered(s, w, id, record)
    ensures !RivalCaller(s, id, record, c)
  {
    hide Inv, IdOf, CallerOk, RecordOk;
    AnsweredFacts(s, w, id, record);
    if RivalCaller(s, id, record, c) {
      CallerFact(s, c);
      WriterFacts(s, c);
    }
  }

  /** The sweep that is pending writes, and a newcomer is told UNKNOWN. */
  lemma PendingSweepDeceives(s: State, w: nat, id: string, record: Record, k: nat)
    requires Inv(s) && WinnersOk(s) && Answered(s, w, id, record) && Stands(s, id, record)
    requires k in s.sweeps && s.sweeps[k].executionId == id
    ensures !ReplaysAgree(s, id, record)
  {
    hide Inv, IdOf, ClaimOk, Do, Enabled, HasVerdict, RawId;
    AnsweredFacts(s, w, id, record);
    var q := s.callers[w].request;
    assert ClaimOk(q);
    SweepFact(s, k);
    SweepStoreGives(s, k);
    var t := Do(s, SweepStore(k));
    var d := Above(s.callers.Keys);
    NewcomerReads(t, d, q);
    Prepend(s, SweepStore(k), AgainSteps(d, q));
    var u := After(s, [SweepStore(k)] + AgainSteps(d, q));
    assert LaterReplay(s, u, id, d);
    VerdictIsNotUnknown(record);
  }

  lemma VerdictIsNotUnknown(record: Record)
    requires HasVerdict(record)
    ensures !record.status.Unknown?
  {}

  lemma SweepStoreGives(s: State, k: nat)
    requires k in s.sweeps
    ensures Enabled(s, SweepStore(k))
    ensures var t := Do(s, SweepStore(k));
            && t.callers == s.callers && s.sweeps[k].executionId in t.disk.records
            && t.disk.records[s.sweeps[k].executionId] == s.sweeps[k]
  {}

  /**
   Replay fidelity, exactly. The winner has returned a record and it is on disk: every
   replay that is answered later, in every continuation, gets this very record and a
   result equal to the winner's if and only if no sweep that loaded the record before
   it was finished is still pending.
   */
  lemma ReplaysReturnTheOriginal(before: seq<Step>, w: nat, id: string, record: Record)
    requires Runs(Init(), before)
    requires Answered(After(Init(), before), w, id, record) && Stands(After(Init(), before), id, record)
    ensures var s := After(Init(), before);
            && (ReplaysAgree(s, id, record) <==> forall k :: k in s.sweeps ==> s.sweeps[k].executionId != id)
            && Rebuild(record.execution) == s.callers[w].phase.reply.result
  {
    hide Inv, Enabled, Do, IdOf, RivalCaller, Answered, Stands, LaterReplay, WinnersOk;
    var s := After(Init(), before);
    InitHolds();
    NoWinnersYet();
    RunsKeep(Init(), before);
    RunsKeepWinners(Init(), before);
    AnswerRebuilds(s, w, id, record);
    if k :| k in s.sweeps && s.sweeps[k].executionId == id {
      PendingSweepDeceives(s, w, id, record, k);
    } else {
      forall c ensures !RivalCaller(s, id, record, c) {
        NobodyElseWrites(s, w, id, record, c);
      }
      NoLaterReplayYet(s, id, record);
      forall steps | Runs(s, steps) ensures ReplaysGet(s, After(s, steps), id, record) {
        RunsKeepReplays(s, s, steps, id, record);
      }
    }
  }

  lemma NoWinnersYet()
    ensures WinnersOk(Init())
  {}

  lemma NoLaterReplayYet(s: State, id: string, record: Record)
    ensures ReplaysGet(s, s, id, record)
  {}

  lemma AnswerRebuilds(s: State, w: nat, id: string, record: Record)
    requires Inv(s) && Answered(s, w, id, record)
    ensures Rebuild(record.execution) == s.callers[w].phase.reply.result
  {
    hide Inv, IdOf, HasVerdict;
    AnsweredFacts(s, w, id, record);
    RebuildKeep(s.callers[w].phase.reply.result.value);
  }
}
