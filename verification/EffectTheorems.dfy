/** What the protocol promises over whole runs. */
module EffectTheorems {
  import opened Values
  import opened JournalDisk
  import opened EffectProtocol
  import opened EffectInvariant
  import opened EffectSteps

  // ----------------------------------------------------------- at most once

  /**
   Whatever the interleaving, the crashes, the sweeps and the transitions caught
   half-way: no two calls of the executor share an execution id, and no two calls
   of the bound path share a run id.
   */
  lemma AtMostOnce(steps: seq<Step>, i: nat, j: nat)
    requires Runs(Init(), steps)
    requires i < j < |After(Init(), steps).log|
    requires After(Init(), steps).log[i].Called? && After(Init(), steps).log[j].Called?
    ensures var a, b := After(Init(), steps).log[i].request, After(Init(), steps).log[j].request;
            && IdOf(a) != IdOf(b)
            && (a.Bound? && b.Bound? ==> RunKey(a.effect) != RunKey(b.effect))
  {
    hide IdOf, RunKey, Inv, Do, Enabled;
    InitHolds();
    RunsKeep(Init(), steps);
    CallsAreDistinct(After(Init(), steps), i, j);
  }

  lemma CallsAreDistinct(s: State, i: nat, j: nat)
    requires Inv(s) && i < j < |s.log| && s.log[i].Called? && s.log[j].Called?
    ensures var a, b := s.log[i].request, s.log[j].request;
            && IdOf(a) != IdOf(b)
            && (a.Bound? && b.Bound? ==> RunKey(a.effect) != RunKey(b.effect))
    ensures forall k | k == i || k == j :: s.log[k].c in s.callers && s.callers[s.log[k].c].request == s.log[k].request
  {
    hide IdOf, RunKey, RecordsOk, SweepsOk, CallersOk, VerdictsFinal, ArmedBy;
    assert CallOk(s, i) && CallOk(s, j);
  }

  /**
   Every call of the executor comes after its caller marked the identity RUNNING,
   which comes after it published the identity, which on the bound path comes
   after it linked the permit of the run.
   */
  lemma CallFollowsPermitIdentityRunning(steps: seq<Step>, i: nat)
    requires Runs(Init(), steps) && i < |After(Init(), steps).log| && After(Init(), steps).log[i].Called?
    ensures var log := After(Init(), steps).log;
            var c, r := log[i].c, log[i].request;
            exists q, p :: 0 <= q < p < i && log[p] == Stored(c, IdOf(r), Running) && log[q] == Published(c, IdOf(r))
              && (r.Bound? ==> exists o :: 0 <= o < q && log[o] == Linked(c, RunKey(r.effect)))
  {
    hide IdOf, RunKey, RecordsOk, SweepsOk, CallersOk, VerdictsFinal, Do, Enabled;
    InitHolds();
    RunsKeep(Init(), steps);
    var s := After(Init(), steps);
    assert CallOk(s, i);
    TrailOf(s.log, i, s.log[i].c, s.log[i].request);
  }

  lemma TrailOf(log: seq<Event>, i: nat, c: nat, r: Request)
    requires i <= |log| && ArmedBy(log[..i], c, r)
    ensures exists q, p :: 0 <= q < p < i && log[p] == Stored(c, IdOf(r), Running) && log[q] == Published(c, IdOf(r))
              && (r.Bound? ==> exists o :: 0 <= o < q && log[o] == Linked(c, RunKey(r.effect)))
  {
    hide IdOf, RunKey;
    var p :| ArmedAt(log[..i], p, c, r);
    assert log[..i][..p] == log[..p] && log[p] == log[..i][p];
    var q :| PublishedAt(log[..p], q, c, r);
    assert log[..p][..q] == log[..q] && log[q] == log[..p][q];
    if r.Bound? {
      var o :| 0 <= o < |log[..q]| && log[..q][o] == Linked(c, RunKey(r.effect));
      assert log[o] == log[..q][o];
    }
  }

  /** A replay, of a permit or of an identity, never called the executor. */
  lemma ReplayNeverCalls(steps: seq<Step>, c: nat, i: nat)
    requires Runs(Init(), steps)
    requires c in After(Init(), steps).callers && After(Init(), steps).callers[c].phase.Returned?
    requires After(Init(), steps).callers[c].phase.reply.replayed
    requires i < |After(Init(), steps).log| && After(Init(), steps).log[i].Called?
    ensures After(Init(), steps).log[i].c != c
  {
    hide IdOf, RunKey, RecordsOk, RecordOk, SweepsOk, VerdictsFinal, Do, Enabled, ArmedBy, WritingOk, PermitOk;
    InitHolds();
    RunsKeep(Init(), steps);
    var s := After(Init(), steps);
    assert CallOk(s, i);
    CallerFact(s, c);
  }

  /**
   Every answer of the bound path, by executing or by a replay of either kind, is a
   record of exactly the effect that was asked for; a replay hands out what the record
   holds, which is nothing while it is unfinished.
   */
  lemma BoundAnswerIsForItsEffect(steps: seq<Step>, c: nat)
    requires Runs(Init(), steps)
    requires var s := After(Init(), steps);
             c in s.callers && s.callers[c].request.Bound? && s.callers[c].phase.Returned?
    ensures var q := After(Init(), steps).callers[c];
            var e, reply := q.request.effect, q.phase.reply;
            && reply.record.incidentId == e.incidentId && reply.record.componentId == e.componentId
            && reply.record.action == e.action && reply.record.command == CommandOf(q.request)
            && reply.record.executionId in {e.executionId, IdOf(q.request)}
    ensures var reply := After(Init(), steps).callers[c].phase.reply;
            && (reply.replayed ==> reply.result == Rebuild(reply.record.execution))
            && (!reply.replayed ==>
                  reply.result.Some? && HasVerdict(reply.record) && reply.record.execution == Some(Keep(reply.result.value)))
  {
    hide RunKey, RecordsOk, SweepsOk, VerdictsFinal, CallsOk, Do, Enabled, ArmedBy, WritingOk, PermitOk, CommandOf, Strip;
    InitHolds();
    RunsKeep(Init(), steps);
    CallerFact(After(Init(), steps), c);
  }

  // ------------------------------------------------------ what lasts forever

  /** History only grows: requests stay, and nobody else ever wins a permit or an identity. */
  ghost predicate KeepsHistory(s: State, t: State) {
    && (forall d :: d in s.callers ==> d in t.callers && t.callers[d].request == s.callers[d].request)
    && (forall run :: run in s.permitWinner ==> run in t.permitWinner && t.permitWinner[run] == s.permitWinner[run])
    && (forall id :: id in s.identityWinner ==> id in t.identityWinner && t.identityWinner[id] == s.identityWinner[id])
  }

  lemma LinkKeepsPermits(s: State, c: nat)
    requires Enabled(s, Link(c))
    ensures KeepsPermits(s.disk, DoLink(s, c).disk)
  {
    hide RunKey, PermitOf;
  }

  lemma DiskStepKeepsPermits(s: State, step: Step)
    requires Enabled(s, step) && (step.Publish? || step.Poll? || step.ReadPermitted? || step.Stage?)
    ensures Do(s, step).disk.permits == s.disk.permits
  {
    hide IdOf, ClaimOk, Validates, RawId, ValidateId, FreshRecord, NameTaken, Rebuild;
  }

  lemma OtherStepKeepsPermits(s: State, step: Step)
    requires Enabled(s, step) && !step.Link? && !(step.Publish? || step.Poll? || step.ReadPermitted? || step.Stage?)
    ensures Do(s, step).disk.permits == s.disk.permits
  {
    hide IdOf, Transition, PlanOf, Admitted, AfterRecord, AfterRefusal;
  }

  lemma StepKeepsPermits(s: State, step: Step)
    requires Enabled(s, step)
    ensures KeepsPermits(s.disk, Do(s, step).disk)
  {
    hide DoLink;
    if step.Link? {
      LinkKeepsPermits(s, step.c);
    } else {
      hide Do, Enabled;
      if step.Publish? || step.Poll? || step.ReadPermitted? || step.Stage? {
        DiskStepKeepsPermits(s, step);
      } else {
        OtherStepKeepsPermits(s, step);
      }
    }
  }

  lemma PublishKeepsHistory(s: State, c: nat)
    requires RecordsOk(s) && Enabled(s, Publish(c))
    ensures KeepsHistory(s, DoPublish(s, c)) && KeepsIdentities(s.disk, DoPublish(s, c).disk)
  {
    hide IdOf, RecordOk, Validates;
  }

  lemma LinkKeepsHistory(s: State, c: nat)
    requires RecordsOk(s) && Enabled(s, Link(c))
    ensures KeepsHistory(s, DoLink(s, c))
  {
    hide IdOf, RecordOk, RunKey, PermitOf;
  }

  lemma LoadKeepsHistory(s: State, c: nat, now: int)
    requires Enabled(s, Load(c, now))
    ensures KeepsHistory(s, DoLoad(s, c, now))
  {
    hide IdOf, Transition, PlanOf, AfterRecord, AfterRefusal;
  }

  lemma ReadingKeepsHistory(s: State, step: Step)
    requires Enabled(s, step) && (step.Poll? || step.ReadPermitted? || step.Stage?)
    ensures KeepsHistory(s, Do(s, step))
  {
    hide IdOf, ClaimOk, Validates, RawId, ValidateId, FreshRecord, Rebuild;
    if step.Poll? {
      assert KeepsHistory(s, DoPoll(s, step.c));
    } else if step.Stage? {
      assert KeepsHistory(s, DoStage(s, step.c, step.now));
    } else {
      assert KeepsHistory(s, DoReadPermitted(s, step.c));
    }
  }

  lemma OtherStepKeepsHistory(s: State, step: Step)
    requires Enabled(s, step) && !step.Publish? && !step.Link?
    requires !(step.Poll? || step.ReadPermitted? || step.Stage? || step.Load?)
    ensures KeepsHistory(s, Do(s, step))
  {
    hide IdOf, Transition, Admitted;
  }

  lemma StepKeepsHistory(s: State, step: Step)
    requires Inv(s) && Enabled(s, step)
    ensures KeepsHistory(s, Do(s, step))
  {
    hide DoPublish, DoLink, DoLoad, RecordsOk, SweepsOk, CallersOk, VerdictsFinal, CallsOk, KeepsHistory;
    if step.Publish? {
      PublishKeepsHistory(s, step.c);
    } else if step.Link? {
      LinkKeepsHistory(s, step.c);
    } else if step.Load? {
      LoadKeepsHistory(s, step.c, step.now);
    } else {
      hide Do, Enabled;
      if step.Poll? || step.ReadPermitted? || step.Stage? {
        ReadingKeepsHistory(s, step);
      } else {
        OtherStepKeepsHistory(s, step);
      }
    }
  }

  lemma StepKeepsIdentities(s: State, step: Step)
    requires Inv(s) && Enabled(s, step)
    ensures KeepsIdentities(s.disk, Do(s, step).disk)
  {
    hide IdOf, RunKey, PermitOf, Transition, PlanOf, Admitted, ClaimOk, Validates, RawId, ValidateId, FreshRecord,
         DoPublish, RecordsOk, CallerOk, VerdictsFinal, CallsOk, RecordOk;
    if step.Publish? {
      PublishKeepsHistory(s, step.c);
    } else if step.Store? {
      CallerFact(s, step.c);
      WriterFacts(s, step.c);
    } else if step.SweepStore? {
      assert SweepOk(s, s.sweeps[step.k]);
    }
  }

  /**
   Permits never change and never go; records never go and keep their identity
   fields. This needs no assumption on how transitions overlap.
   */
  lemma {:induction false} PermitsAndIdentitiesLast(s: State, steps: seq<Step>)
    requires Inv(s) && Runs(s, steps)
    ensures KeepsPermits(s.disk, After(s, steps).disk)
    ensures KeepsIdentities(s.disk, After(s, steps).disk)
    ensures KeepsHistory(s, After(s, steps))
    decreases |steps|
  {
    hide Inv, Enabled, Do;
    if steps != [] {
      StepKeeps(s, steps[0]);
      StepKeepsPermits(s, steps[0]);
      StepKeepsIdentities(s, steps[0]);
      StepKeepsHistory(s, steps[0]);
      PermitsAndIdentitiesLast(Do(s, steps[0]), steps[1..]);
    }
  }

  // ----------------------------------------------------- guarded transitions

  /** A pending write whose record is no longer what the guard of `transition` saw. */
  predicate Overwrites(d: Disk, id: string, next: Record) {
    id in d.records && Terminal(d.records[id].status) && d.records[id] != next
  }

  /** The guard that `transition` tests on loading still holds when the step writes. */
  predicate Guarded(s: State, step: Step)
    requires Enabled(s, step)
  {
    match step
    case Store(c) => !Overwrites(s.disk, IdOf(s.callers[c].request), s.callers[c].phase.next)
    case SweepStore(k) => !Overwrites(s.disk, s.sweeps[k].executionId, s.sweeps[k])
    case _ => true
  }

  lemma StoreEvolves(s: State, c: nat)
    requires Enabled(s, Store(c)) && WritingOk(s, c, s.callers[c])
    ensures Guarded(s, Store(c)) <==> Evolves(s.disk, DoStore(s, c).disk)
  {
    hide IdOf, RecordOk, ReplyOk;
    var id, next := IdOf(s.callers[c].request), s.callers[c].phase.next;
    assert DoStore(s, c).disk.records[id] == next;
  }

  lemma SweepStoreEvolves(s: State, k: nat)
    requires k in s.sweeps && SweepOk(s, s.sweeps[k])
    ensures Guarded(s, SweepStore(k)) <==> Evolves(s.disk, DoSweepStore(s, k).disk)
  {
    hide IdOf, RecordOk;
    var next := s.sweeps[k];
    assert DoSweepStore(s, k).disk.records[next.executionId] == next;
  }

  predicate WritesRecords(step: Step) {
    step.Link? || step.Publish? || step.Store? || step.SweepStore?
  }

  lemma QuietStep(s: State, step: Step)
    requires Enabled(s, step) && !WritesRecords(step)
    ensures Do(s, step).disk.permits == s.disk.permits && Do(s, step).disk.records == s.disk.records
  {
    hide IdOf, Transition, PlanOf, Admitted, ClaimOk, Validates, RawId, ValidateId, FreshRecord, Rebuild, AfterRecord;
  }

  lemma PublishEvolves(s: State, c: nat)
    requires RecordsOk(s) && Enabled(s, Publish(c))
    ensures Evolves(s.disk, DoPublish(s, c).disk)
  {
    hide IdOf, RecordOk, Validates;
  }

  lemma LinkEvolves(s: State, c: nat)
    requires Enabled(s, Link(c))
    ensures Evolves(s.disk, DoLink(s, c).disk)
  {
    hide RunKey, PermitOf;
  }

  lemma OtherStepsEvolve(s: State, step: Step)
    requires RecordsOk(s) && Enabled(s, step) && !step.Store? && !step.SweepStore?
    ensures Evolves(s.disk, Do(s, step).disk)
  {
    hide RecordsOk, DoPublish, DoLink;
    if step.Publish? {
      PublishEvolves(s, step.c);
    } else if step.Link? {
      LinkEvolves(s, step.c);
    } else {
      hide Do;
      QuietStep(s, step);
    }
  }

  /**
   Exactly when a step keeps every rank from falling and every terminal record
   unchanged: when a write still finds the record unfinished.
   */
  lemma EvolvesExactlyWhenGuarded(s: State, step: Step)
    requires Inv(s) && Enabled(s, step)
    ensures Guarded(s, step) <==> Evolves(s.disk, Do(s, step).disk)
  {
    hide RecordsOk, CallersOk, VerdictsFinal, CallsOk, CallerOk, RecordOk, IdOf, Evolves, WritingOk, OwnerOk, Overwrites;
    if step.Store? {
      CallerFact(s, step.c);
      WriterFacts(s, step.c);
      StoreEvolves(s, step.c);
    } else if step.SweepStore? {
      assert SweepOk(s, s.sweeps[step.k]);
      SweepStoreEvolves(s, step.k);
    } else {
      OtherStepsEvolve(s, step);
    }
  }

  predicate GuardedRun(s: State, steps: seq<Step>)
    requires Runs(s, steps)
    decreases |steps|
  {
    steps == [] || (Guarded(s, steps[0]) && GuardedRun(Do(s, steps[0]), steps[1..]))
  }

  ghost predicate MonotoneRun(s: State, steps: seq<Step>)
    requires Runs(s, steps)
    decreases |steps|
  {
    steps == [] || (Evolves(s.disk, Do(s, steps[0]).disk) && MonotoneRun(Do(s, steps[0]), steps[1..]))
  }

  /** A run is monotone from step to step if and only if all its writes are guarded. */
  lemma {:induction false} MonotoneExactlyWhenGuarded(s: State, steps: seq<Step>)
    requires Inv(s) && Runs(s, steps)
    ensures GuardedRun(s, steps) <==> MonotoneRun(s, steps)
    ensures GuardedRun(s, steps) ==> Evolves(s.disk, After(s, steps).disk)
    decreases |steps|
  {
    hide Inv, Enabled, Do, Guarded, Evolves;
    if steps == [] {
      SameDiskEvolves(s.disk);
    } else {
      var t := Do(s, steps[0]);
      StepKeeps(s, steps[0]);
      EvolvesExactlyWhenGuarded(s, steps[0]);
      MonotoneExactlyWhenGuarded(t, steps[1..]);
      if GuardedRun(s, steps) {
        EvolvesTransitive(s.disk, t.disk, After(t, steps[1..]).disk);
      }
    }
  }

  lemma SameDiskEvolves(d: Disk)
    ensures Evolves(d, d)
  {}

  // ------------------------------------------------------ what a step moves

  /** The caller that a step moves, if any. */
  function ActorOf(step: Step): int {
    match step
    case SweepLoad(_, _, _) => -1
    case SweepStore(_) => -1
    case SweepStop(_) => -1
    case _ => step.c
  }

  ghost predicate OthersStay(s: State, t: State, c: int) {
    forall d :: d in t.callers && d != c ==> d in s.callers && t.callers[d] == s.callers[d]
  }

  lemma OthersStayOnDisk(s: State, step: Step)
    requires Enabled(s, step) && (step.Link? || step.Stage? || step.Publish? || step.ReadPermitted? || step.Poll?)
    ensures OthersStay(s, Do(s, step), ActorOf(step))
  {
    hide IdOf, RunKey, PermitOf, ClaimOk, Validates, RawId, ValidateId, FreshRecord, Rebuild, NameTaken;
  }

  lemma OthersStayOtherwise(s: State, step: Step)
    requires Enabled(s, step) && !(step.Link? || step.Stage? || step.Publish? || step.ReadPermitted? || step.Poll?)
    ensures OthersStay(s, Do(s, step), ActorOf(step))
  {
    hide IdOf, Transition, PlanOf, Admitted, AfterRecord, AfterRefusal;
  }

  lemma OnlyTheActorMoves(s: State, step: Step, c: nat)
    requires Enabled(s, step) && c in Do(s, step).callers && c != ActorOf(step)
    ensures c in s.callers && Do(s, step).callers[c] == s.callers[c]
  {
    hide Do, Enabled;
    if step.Link? || step.Stage? || step.Publish? || step.ReadPermitted? || step.Poll? {
      OthersStayOnDisk(s, step);
    } else {
      OthersStayOtherwise(s, step);
    }
  }

  lemma NoReply(s: State, step: Step, c: nat)
    requires Enabled(s, step) && ActorOf(step) == c && c in Do(s, step).callers
    requires !step.Store? && !step.Load? && !step.Fetch? && !step.Poll? && !step.ReadPermitted?
    ensures !Do(s, step).callers[c].phase.Returned?
  {
    hide IdOf, RunKey, PermitOf, Admitted, ClaimOk, Validates, FreshRecord;
  }

  // ------------------------------------------------- verdicts are earned

  ghost predicate CalledBy(log: seq<Event>, c: nat, r: Request) {
    exists i :: 0 <= i < |log| && log[i] == Called(c, r)
  }

  predicate BearsVerdict(p: Phase) {
    p.Finished? || (p.Writing? && HasVerdict(p.next))
  }

  ghost predicate Earned(s: State) {
    && (forall c :: c in s.callers && BearsVerdict(s.callers[c].phase) ==> CalledBy(s.log, c, s.callers[c].request))
    && (forall id :: id in s.disk.records && id in s.identityWinner && s.identityWinner[id] in s.callers
                     && HasVerdict(s.disk.records[id]) ==>
          CalledBy(s.log, s.identityWinner[id], s.callers[s.identityWinner[id]].request))
  }

  /** How a step may change the records and phases that bear verdicts. */
  ghost predicate VerdictStep(s: State, t: State) {
    && KeepsHistory(s, t)
    && s.log <= t.log
    && (forall c :: c in t.callers && BearsVerdict(t.callers[c].phase) ==>
          (c in s.callers && BearsVerdict(s.callers[c].phase)) || CalledBy(t.log, c, t.callers[c].request))
    && (forall id :: id in t.disk.records && HasVerdict(t.disk.records[id]) && id in t.identityWinner ==>
          || (id in s.disk.records && s.disk.records[id] == t.disk.records[id])
          || (t.identityWinner[id] in s.callers && BearsVerdict(s.callers[t.identityWinner[id]].phase)))
  }

  lemma VerdictStepKeeps(s: State, t: State)
    requires RecordsOk(s) && Earned(s) && VerdictStep(s, t)
    ensures Earned(t)
  {
    hide RecordOk, IdOf;
    forall c, r | CalledBy(s.log, c, r) ensures CalledBy(t.log, c, r) {
      var i :| 0 <= i < |s.log| && s.log[i] == Called(c, r);
      assert t.log[i] == s.log[i];
    }
  }

  lemma LogGrows(s: State, step: Step)
    requires Enabled(s, step)
    ensures s.log <= Do(s, step).log
  {
    hide IdOf, RunKey, PermitOf, ClaimOk, Validates, RawId, ValidateId, FreshRecord, Rebuild, NameTaken, Transition, PlanOf,
         Admitted, AfterRecord, AfterRefusal;
  }

  /** Only the executor's answer and the load after it lead to a verdict. */
  lemma PhaseVerdict(s: State, step: Step, c: nat)
    requires Inv(s) && Enabled(s, step) && c in Do(s, step).callers && BearsVerdict(Do(s, step).callers[c].phase)
    ensures c in s.callers
    ensures BearsVerdict(s.callers[c].phase) || (step.Call? && step.c == c)
  {
    hide Inv, Do, IdOf, Enabled, HasVerdict;
    if c != ActorOf(step) {
      OnlyTheActorMoves(s, step, c);
    } else if step.Load? {
      LoadVerdict(s, c, step.now);
    } else {
      OtherVerdict(s, step, c);
    }
  }

  lemma LoadVerdict(s: State, c: nat, now: int)
    requires Inv(s) && Enabled(s, Load(c, now)) && BearsVerdict(Do(s, Load(c, now)).callers[c].phase)
    ensures c in s.callers && s.callers[c].phase.Finished?
  {
    hide Inv, CallerOk, RecordOk, RecordsOk, VerdictsFinal, IdOf, MoveOk, DoLoad;
    OwnedRecordOf(s, c);
    PlannedRecordOk(s.callers[c], s.disk.records[IdOf(s.callers[c].request)], now);
    LoadVerdictCase(s, c, now);
  }

  lemma OwnedRecordOf(s: State, c: nat)
    requires Inv(s) && c in s.callers && Owns(s.callers[c].phase)
    ensures IdOf(s.callers[c].request) in s.disk.records
    ensures RecordOk(s.disk.records[IdOf(s.callers[c].request)], s.callers[c].request)
    ensures !HasVerdict(s.disk.records[IdOf(s.callers[c].request)])
  {
    hide CallerOk, RecordOk, RecordsOk, VerdictsFinal, IdOf, CallersOk, SweepsOk, CallsOk, HasVerdict;
    CallerFact(s, c);
    OwnedRecord(s, c);
  }

  lemma LoadVerdictCase(s: State, c: nat, now: int)
    requires Enabled(s, Load(c, now)) && IdOf(s.callers[c].request) in s.disk.records
    requires MoveOk(s.callers[c], s.disk.records[IdOf(s.callers[c].request)], LoadedMove(s, c, now))
    requires BearsVerdict(DoLoad(s, c, now).callers[c].phase)
    ensures s.callers[c].phase.Finished?
  {
    hide IdOf, RecordOk, PlanOf, Transition, ReplyOk, HasVerdict;
  }

  lemma StoreVerdict(s: State, c: nat)
    requires Inv(s) && Enabled(s, Store(c))
    ensures !BearsVerdict(DoStore(s, c).callers[c].phase)
  {
    hide CallerOk, RecordOk, RecordsOk, VerdictsFinal, IdOf, CallersOk, SweepsOk, CallsOk, HasVerdict;
    CallerFact(s, c);
    WriterFacts(s, c);
  }

  lemma NoVerdictFromDisk(s: State, step: Step, c: nat)
    requires Enabled(s, step) && ActorOf(step) == c && c in Do(s, step).callers
    requires step.Link? || step.Stage? || step.Publish? || step.ReadPermitted? || step.Poll?
    ensures !BearsVerdict(Do(s, step).callers[c].phase)
  {
    hide IdOf, RunKey, PermitOf, ClaimOk, Validates, FreshRecord, HasVerdict, NameTaken, RawId, ValidateId, Rebuild;
    if step.Publish? || step.Link? {
      hide DoPoll, DoStage, DoReadPermitted;
    } else {
      hide DoPublish, DoLink;
    }
  }

  lemma NoVerdictOtherwise(s: State, step: Step, c: nat)
    requires Enabled(s, step) && ActorOf(step) == c && c in Do(s, step).callers && !step.Load? && !step.Store? && !step.Call?
    requires !(step.Link? || step.Stage? || step.Publish? || step.ReadPermitted? || step.Poll?)
    ensures !BearsVerdict(Do(s, step).callers[c].phase)
  {
    hide IdOf, Admitted, HasVerdict;
  }

  lemma ActorExists(s: State, step: Step, c: nat)
    requires Enabled(s, step) && ActorOf(step) == c
    ensures c in s.callers || step.Arrive?
  {
    hide IdOf;
  }

  lemma OtherVerdict(s: State, step: Step, c: nat)
    requires Inv(s) && Enabled(s, step) && ActorOf(step) == c && c in Do(s, step).callers && !step.Load?
    requires BearsVerdict(Do(s, step).callers[c].phase)
    ensures step.Call? && c in s.callers
  {
    ActorExists(s, step, c);
    if step.Store? {
      hide Inv, Enabled, DoStore, BearsVerdict;
      StoreVerdict(s, c);
    } else if step.Link? || step.Stage? || step.Publish? || step.ReadPermitted? || step.Poll? {
      hide Inv, Do, Enabled, BearsVerdict;
      NoVerdictFromDisk(s, step, c);
    } else if !step.Call? {
      hide Inv, Do, Enabled, BearsVerdict;
      NoVerdictOtherwise(s, step, c);
    }
  }

  /** Only its owner writes a verdict into a record. */
  lemma RecordVerdict(s: State, step: Step, id: string)
    requires Inv(s) && Enabled(s, step) && id in Do(s, step).disk.records && HasVerdict(Do(s, step).disk.records[id])
    requires id in Do(s, step).identityWinner
    ensures || (id in s.disk.records && s.disk.records[id] == Do(s, step).disk.records[id])
            || (Do(s, step).identityWinner[id] in s.callers && BearsVerdict(s.callers[Do(s, step).identityWinner[id]].phase))
  {
    hide CallerOk, RecordOk, RecordsOk, VerdictsFinal, IdOf, CallersOk, CallsOk;
    if !WritesRecords(step) || step.Link? {
      hide Inv, Do, HasVerdict;
      LinkOrQuiet(s, step);
    } else if step.Store? {
      CallerFact(s, step.c);
      WriterFacts(s, step.c);
    } else if step.SweepStore? {
      assert SweepOk(s, s.sweeps[step.k]);
    } else {
      CallerFact(s, step.c);
      StagedIsClaimed(s, step.c);
      hide NameTaken, Validates;
    }
  }

  lemma LinkOrQuiet(s: State, step: Step)
    requires Enabled(s, step) && (!WritesRecords(step) || step.Link?)
    ensures Do(s, step).disk.records == s.disk.records
  {
    if !step.Link? {
      hide Do;
      QuietStep(s, step);
    } else {
      hide RunKey, PermitOf;
    }
  }

  lemma StagedIsClaimed(s: State, c: nat)
    requires c in s.callers && CallerOk(s, c, s.callers[c]) && s.callers[c].phase.Staged?
    ensures c in s.disk.staging && !HasVerdict(s.disk.staging[c])
  {
    hide IdOf, RecordOk, PermitOk, WritingOk, OwnerOk, Admitted, ReturnedOk;
  }

  lemma CallIsLogged(s: State, c: nat, outcome: Option<Output>)
    requires Enabled(s, Call(c, outcome))
    ensures CalledBy(Do(s, Call(c, outcome)).log, c, s.callers[c].request)
  {
    assert Do(s, Call(c, outcome)).log[|s.log|] == Called(c, s.callers[c].request);
  }

  lemma StepKeepsEarned(s: State, step: Step)
    requires Inv(s) && Enabled(s, step) && Earned(s)
    ensures Earned(Do(s, step))
  {
    hide Do, Enabled, CalledBy, BearsVerdict, HasVerdict, SweepsOk, CallersOk, VerdictsFinal, CallsOk, RecordOk, IdOf, Earned;
    var t := Do(s, step);
    StepKeepsHistory(s, step);
    LogGrows(s, step);
    forall c | c in t.callers && BearsVerdict(t.callers[c].phase)
      ensures (c in s.callers && BearsVerdict(s.callers[c].phase)) || CalledBy(t.log, c, t.callers[c].request)
    {
      PhaseVerdict(s, step, c);
      if step.Call? && step.c == c {
        CallIsLogged(s, c, step.outcome);
      }
    }
    forall id | id in t.disk.records && HasVerdict(t.disk.records[id]) && id in t.identityWinner
      ensures || (id in s.disk.records && s.disk.records[id] == t.disk.records[id])
              || (t.identityWinner[id] in s.callers && BearsVerdict(s.callers[t.identityWinner[id]].phase))
    {
      RecordVerdict(s, step, id);
    }
    VerdictStepKeeps(s, t);
  }

  lemma {:induction false} RunsKeepEarned(s: State, steps: seq<Step>)
    requires Inv(s) && Earned(s) && Runs(s, steps)
    ensures Earned(After(s, steps))
    decreases |steps|
  {
    hide Inv, Enabled, Do, Earned;
    if steps != [] {
      StepKeeps(s, steps[0]);
      StepKeepsEarned(s, steps[0]);
      RunsKeepEarned(Do(s, steps[0]), steps[1..]);
    }
  }

  /**
   A record that says SUCCEEDED or FAILED: the executor was called for it, by the
   winner of the identity; the record holds the outcome, with exit code zero exactly
   for SUCCEEDED; and on the bound path the command that was run is the authorised one.
   */
  lemma VerdictTellsWhatHappened(steps: seq<Step>, id: string)
    requires Runs(Init(), steps)
    requires var s := After(Init(), steps); id in s.disk.records && HasVerdict(s.disk.records[id])
    ensures var s := After(Init(), steps);
            var record := s.disk.records[id];
            && record.execution.Some?
            && (record.status.Succeeded? <==> record.execution.value.exitCode == 0)
            && exists c, r :: CalledBy(s.log, c, r) && IdOf(r) == id
                 && record.command == CommandOf(r)
                 && (r.Bound? ==> record.execution.value.command == CommandOf(r))
  {
    hide IdOf, CommandOf, Do, Enabled, SweepsOk, CallersOk, VerdictsFinal, CallsOk, CalledBy;
    InitHolds();
    RunsKeep(Init(), steps);
    RunsKeepEarned(Init(), steps);
    var s := After(Init(), steps);
    var c := s.identityWinner[id];
    assert RecordOk(s.disk.records[id], s.callers[c].request);
    assert CalledBy(s.log, c, s.callers[c].request);
  }
}
