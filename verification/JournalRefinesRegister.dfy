/** The remediation journal is a single-use register keyed by execution id. */
module JournalRefinesRegister {
  import opened Values
  import opened JournalDisk
  import opened EffectProtocol
  import opened EffectInvariant
  import opened EffectSteps
  import opened EffectTheorems
  import SingleUse

  function VerdictOf(status: Status): (v: Option<SingleUse.Verdict>)
    ensures (v == Some(SingleUse.Success) <==> status.Succeeded?) && (v == Some(SingleUse.Failure) <==> status.Failed?)
    ensures v == Some(SingleUse.Unknown) <==> status.Unknown?
  {
    match status
    case Succeeded => Some(SingleUse.Success)
    case Failed => Some(SingleUse.Failure)
    case Unknown => Some(SingleUse.Unknown)
    case _ => None
  }

  function Calls(log: seq<Event>): seq<SingleUse.Perform> {
    if log == [] then []
    else
      var last := log[|log| - 1];
      Calls(log[..|log| - 1]) + if last.Called? then [SingleUse.Perform(IdOf(last.request), last.c)] else []
  }

  function CellOf(s: State, id: string): SingleUse.Cell
    requires id in s.disk.records && id in s.identityWinner
  {
    SingleUse.Cell(s.identityWinner[id], VerdictOf(s.disk.records[id].status))
  }

  function Abs(s: State): SingleUse.Register {
    SingleUse.Register(map id | id in s.disk.records && id in s.identityWinner :: CellOf(s, id), Calls(s.log))
  }

  /** What a write of `next` over the record of an identity is, seen as an action on the register. */
  function WriteAction(s: State, id: string, next: Record, c: int): SingleUse.Action
    requires id in s.disk.records
  {
    var stands, comes := VerdictOf(s.disk.records[id].status), VerdictOf(next.status);
    if stands == comes then SingleUse.Stutter
    else if stands.Some? then SingleUse.Overwrite(id, comes)
    else if c < 0 then SingleUse.Force(id)
    else SingleUse.Settle(id, c, comes.value)
  }

  function ActionOf(s: State, step: Step): SingleUse.Action
    requires Enabled(s, step)
  {
    match step
    case Publish(c) =>
      if NameTaken(s.disk, IdOf(s.callers[c].request)) then SingleUse.Stutter
      else SingleUse.Acquire(IdOf(s.callers[c].request), c)
    case Call(c, _) => SingleUse.Act(IdOf(s.callers[c].request), c)
    case Store(c) =>
      if IdOf(s.callers[c].request) in s.disk.records then
        WriteAction(s, IdOf(s.callers[c].request), s.callers[c].phase.next, c)
      else SingleUse.Stutter
    case SweepStore(k) =>
      if s.sweeps[k].executionId in s.disk.records then WriteAction(s, s.sweeps[k].executionId, s.sweeps[k], -1)
      else SingleUse.Stutter
    case _ => SingleUse.Stutter
  }

  // -------------------------------------------------------------- the log

  lemma CallsOfLogged(log: seq<Event>, e: Event)
    ensures Calls(log + [e]) == Calls(log) + if e.Called? then [SingleUse.Perform(IdOf(e.request), e.c)] else []
  {
    hide IdOf;
    assert (log + [e])[..|log|] == log;
  }

  lemma {:induction false} CallIsListed(log: seq<Event>, i: nat)
    requires i < |log| && log[i].Called?
    ensures exists j :: 0 <= j < |Calls(log)| && Calls(log)[j] == SingleUse.Perform(IdOf(log[i].request), log[i].c)
    decreases |log|
  {
    hide IdOf;
    var n := |log| - 1;
    if i == n {
      assert Calls(log)[|Calls(log)| - 1] == SingleUse.Perform(IdOf(log[i].request), log[i].c);
    } else {
      CallIsListed(log[..n], i);
      var j :| 0 <= j < |Calls(log[..n])| && Calls(log[..n])[j] == SingleUse.Perform(IdOf(log[i].request), log[i].c);
      assert Calls(log)[j] == Calls(log[..n])[j];
    }
  }

  lemma {:induction false} ListedIsCall(log: seq<Event>, j: nat)
    requires j < |Calls(log)|
    ensures exists i :: 0 <= i < |log| && log[i].Called? && Calls(log)[j] == SingleUse.Perform(IdOf(log[i].request), log[i].c)
    decreases |log|
  {
    hide IdOf;
    var n := |log| - 1;
    if j < |Calls(log[..n])| {
      ListedIsCall(log[..n], j);
      var i :| 0 <= i < n && log[..n][i].Called?
        && Calls(log[..n])[j] == SingleUse.Perform(IdOf(log[..n][i].request), log[..n][i].c);
      assert log[i] == log[..n][i];
    } else {
      assert log[n].Called?;
    }
  }

  // ------------------------------------------------------------- the steps

  lemma SameAbs(s: State, t: State)
    requires t.disk.records == s.disk.records && t.identityWinner == s.identityWinner && Calls(t.log) == Calls(s.log)
    ensures Abs(t) == Abs(s)
  {}

  lemma PublishRefines(s: State, c: nat)
    requires RecordsOk(s) && Enabled(s, Publish(c)) && s.disk.staging[c].status.Claimed?
    ensures SingleUse.Can(Abs(s), ActionOf(s, Publish(c)))
    ensures SingleUse.Next(Abs(s), ActionOf(s, Publish(c))) == Abs(DoPublish(s, c))
  {
    hide IdOf, RecordOk, Validates, Calls;
    if NameTaken(s.disk, IdOf(s.callers[c].request)) {
      hide NameTaken;
      SameAbs(s, DoPublish(s, c));
    } else {
      NewlyPublished(s, c);
    }
  }

  lemma NewlyPublished(s: State, c: nat)
    requires RecordsOk(s) && Enabled(s, Publish(c)) && s.disk.staging[c].status.Claimed?
    requires !NameTaken(s.disk, IdOf(s.callers[c].request))
    ensures SingleUse.Can(Abs(s), ActionOf(s, Publish(c)))
    ensures SingleUse.Next(Abs(s), ActionOf(s, Publish(c))) == Abs(DoPublish(s, c))
  {
    hide IdOf, RecordOk, Validates, Calls;
    CallsOfLogged(s.log, Published(c, IdOf(s.callers[c].request)));
  }

  lemma CallRefines(s: State, c: nat, outcome: Option<Output>)
    requires Inv(s) && Enabled(s, Call(c, outcome))
    ensures SingleUse.Can(Abs(s), ActionOf(s, Call(c, outcome)))
    ensures SingleUse.Next(Abs(s), ActionOf(s, Call(c, outcome))) == Abs(Do(s, Call(c, outcome)))
  {
    hide IdOf, RecordOk, Calls, CallerOk, VerdictsFinal, SweepsOk;
    CallsOfLogged(s.log, Called(c, s.callers[c].request));
    OwnedRecordOf(s, c);
    CallerFact(s, c);
    OwnerFact(s, c);
    NotPerformedYet(s, c);
  }

  lemma OwnerFact(s: State, c: nat)
    requires c in s.callers && CallerOk(s, c, s.callers[c]) && Owns(s.callers[c].phase)
    ensures OwnerOk(s, c, s.callers[c].request)
  {
    hide IdOf, RecordOk, WritingOk, ReturnedOk, PermitOk, Admitted;
  }

  lemma NotPerformedYet(s: State, c: nat)
    requires Inv(s) && c in s.callers && s.callers[c].phase.Armed?
    ensures !SingleUse.Performed(Abs(s), IdOf(s.callers[c].request))
  {
    hide IdOf, RecordOk, RecordsOk, CallersOk, CallerOk, VerdictsFinal, SweepsOk, Calls, ArmedBy;
    CallerFact(s, c);
    OwnerFact(s, c);
    forall j: nat | j < |Calls(s.log)| ensures Calls(s.log)[j].key != IdOf(s.callers[c].request) {
      ListedIsCall(s.log, j);
      var i :| 0 <= i < |s.log| && s.log[i].Called? && Calls(s.log)[j] == SingleUse.Perform(IdOf(s.log[i].request), s.log[i].c);
      assert CallOk(s, i);
    }
  }

  lemma WriteRefines(s: State, t: State, id: string, next: Record, c: int)
    requires id in s.disk.records && id in s.identityWinner && t.disk.records == s.disk.records[id := next]
    requires t.identityWinner == s.identityWinner && Calls(t.log) == Calls(s.log)
    requires c >= 0 ==> s.identityWinner[id] == c
    requires c < 0 ==> next.status.Unknown?
    requires next.status.Succeeded? ==> SingleUse.Performed(Abs(s), id)
    ensures SingleUse.Can(Abs(s), WriteAction(s, id, next, c))
    ensures SingleUse.Next(Abs(s), WriteAction(s, id, next, c)) == Abs(t)
    ensures !Overwrites(s.disk, id, next) ==> !WriteAction(s, id, next, c).Overwrite?
  {
    hide Calls;
  }

  lemma EarnedIsPerformed(s: State, c: nat)
    requires Earned(s) && c in s.callers && BearsVerdict(s.callers[c].phase)
    ensures SingleUse.Performed(Abs(s), IdOf(s.callers[c].request))
  {
    hide IdOf, Calls;
    assert CalledBy(s.log, c, s.callers[c].request);
    var i :| 0 <= i < |s.log| && s.log[i] == Called(c, s.callers[c].request);
    CallIsListed(s.log, i);
  }

  lemma StoreRefines(s: State, c: nat)
    requires Inv(s) && Earned(s) && Enabled(s, Store(c))
    ensures SingleUse.Can(Abs(s), ActionOf(s, Store(c)))
    ensures SingleUse.Next(Abs(s), ActionOf(s, Store(c))) == Abs(DoStore(s, c))
    ensures Guarded(s, Store(c)) ==> !ActionOf(s, Store(c)).Overwrite?
  {
    hide IdOf, RecordOk, RecordsOk, CallersOk, CallerOk, VerdictsFinal, SweepsOk, CallsOk, Calls, Earned, Abs, Overwrites,
         WriteAction, WritingOk;
    CallerFact(s, c);
    WriterFacts(s, c);
    OwnedRecordOf(s, c);
    if s.callers[c].phase.next.status.Succeeded? {
      EarnedIsPerformed(s, c);
    }
    CallsOfLogged(s.log, Stored(c, IdOf(s.callers[c].request), s.callers[c].phase.next.status));
    WriteRefines(s, DoStore(s, c), IdOf(s.callers[c].request), s.callers[c].phase.next, c);
  }

  lemma SweepStoreRefines(s: State, k: nat)
    requires Inv(s) && Enabled(s, SweepStore(k))
    ensures SingleUse.Can(Abs(s), ActionOf(s, SweepStore(k)))
    ensures SingleUse.Next(Abs(s), ActionOf(s, SweepStore(k))) == Abs(DoSweepStore(s, k))
    ensures Guarded(s, SweepStore(k)) ==> !ActionOf(s, SweepStore(k)).Overwrite?
  {
    hide IdOf, RecordOk, RecordsOk, CallersOk, VerdictsFinal, CallsOk, Calls, Abs, Overwrites, WriteAction;
    assert SweepOk(s, s.sweeps[k]);
    CallsOfLogged(s.log, Swept(s.sweeps[k].executionId));
    WriteRefines(s, DoSweepStore(s, k), s.sweeps[k].executionId, s.sweeps[k], -1);
  }

  lemma OtherStepRefines(s: State, step: Step)
    requires RecordsOk(s) && Enabled(s, step) && !step.Publish? && !step.Call? && !step.Store? && !step.SweepStore?
    ensures Abs(Do(s, step)) == Abs(s)
  {
    hide RecordOk, Calls, Abs, RecordsOk;
    if step.Link? {
      hide RunKey, PermitOf;
      CallsOfLogged(s.log, Linked(step.c, RunKey(s.callers[step.c].request.effect)));
      SameAbs(s, Do(s, step));
    } else {
      hide Do;
      QuietStep(s, step);
      QuietLog(s, step);
      SameAbs(s, Do(s, step));
    }
  }

  lemma QuietLog(s: State, step: Step)
    requires Enabled(s, step) && !step.Link? && !step.Publish? && !step.Call? && !step.Store? && !step.SweepStore?
    ensures Do(s, step).log == s.log && Do(s, step).identityWinner == s.identityWinner
  {
    hide IdOf, Transition, PlanOf, Admitted, ClaimOk, Validates, RawId, ValidateId, FreshRecord, Rebuild, AfterRecord, AfterRefusal;
  }

  /** Every step of the protocol is one action of the register; a guarded one never overwrites a verdict. */
  lemma StepRefines(s: State, step: Step)
    requires Inv(s) && Earned(s) && Enabled(s, step)
    ensures SingleUse.Can(Abs(s), ActionOf(s, step))
    ensures SingleUse.Next(Abs(s), ActionOf(s, step)) == Abs(Do(s, step))
    ensures Guarded(s, step) ==> !ActionOf(s, step).Overwrite?
  {
    hide IdOf, RecordOk, CallerOk, CallersOk, VerdictsFinal, SweepsOk, CallsOk, Calls, Abs, Earned, DoPublish, DoStore, DoSweepStore,
         WriteAction, RecordsOk;
    match step
    case Publish(c) =>
      CallerFact(s, c);
      StagedStatus(s, c);
      PublishRefines(s, c);
    case Call(c, outcome) => CallRefines(s, c, outcome);
    case Store(c) => StoreRefines(s, c);
    case SweepStore(k) => SweepStoreRefines(s, k);
    case _ =>
      hide Do;
      OtherStepRefines(s, step);
  }

  lemma StagedStatus(s: State, c: nat)
    requires c in s.callers && CallerOk(s, c, s.callers[c]) && s.callers[c].phase.Staged?
    ensures c in s.disk.staging && s.disk.staging[c].status.Claimed?
  {
    hide IdOf, RecordOk, PermitOk, WritingOk, OwnerOk, Admitted, ReturnedOk;
  }

  function Actions(s: State, steps: seq<Step>): seq<SingleUse.Action>
    requires Runs(s, steps)
    decreases |steps|
  {
    if steps == [] then [] else [ActionOf(s, steps[0])] + Actions(Do(s, steps[0]), steps[1..])
  }

  /** Every run of the protocol is a run of the register; a guarded one never overwrites a verdict. */
  lemma {:induction false} RunRefines(s: State, steps: seq<Step>)
    requires Inv(s) && Earned(s) && Runs(s, steps)
    ensures SingleUse.Follows(Abs(s), Actions(s, steps))
    ensures SingleUse.End(Abs(s), Actions(s, steps)) == Abs(After(s, steps))
    ensures GuardedRun(s, steps) ==> forall a :: a in Actions(s, steps) ==> !a.Overwrite?
    ensures s == Init() ==> Abs(s) == SingleUse.EMPTY
    decreases |steps|
  {
    StartsEmpty();
    hide Inv, Earned, Enabled, Do, Guarded, Abs, ActionOf;
    if steps != [] {
      StepRefines(s, steps[0]);
      StepKeeps(s, steps[0]);
      StepKeepsEarned(s, steps[0]);
      RunRefines(Do(s, steps[0]), steps[1..]);
      assert Actions(s, steps)[1..] == Actions(Do(s, steps[0]), steps[1..]);
    }
  }

  lemma StartsEmpty()
    ensures Abs(Init()) == SingleUse.EMPTY
  {}
}
