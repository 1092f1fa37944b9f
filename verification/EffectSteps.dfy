/** Every step of the protocol keeps its invariant, so every run does. */
module EffectSteps {
  import opened Values
  import opened JournalDisk
  import opened EffectProtocol
  import opened EffectInvariant

  lemma CallerFact(s: State, c: nat)
    requires Inv(s) && c in s.callers
    ensures CallerOk(s, c, s.callers[c])
  {
    hide CallerOk, RecordsOk, SweepsOk, VerdictsFinal, CallsOk;
  }

  // -------------------------------------------------- steps that only move

  lemma AdmitOk(s: State, c: nat)
    requires Enabled(s, Admit(c)) && CallerOk(s, c, s.callers[c])
    ensures CallerOk(Do(s, Admit(c)), c, Do(s, Admit(c)).callers[c])
  {
    hide IdOf, RecordOk, Admitted;
  }

  lemma AdmitKeeps(s: State, c: nat)
    requires Inv(s) && Enabled(s, Admit(c))
    ensures Inv(Do(s, Admit(c)))
  {
    hide CallsOk, SweepsOk, RecordsOk, VerdictsFinal, CallerOk, CallersOk, Admitted;
    CallerFact(s, c);
    AdmitOk(s, c);
    MovesKeep(s, Do(s, Admit(c)), c, Do(s, Admit(c)).callers[c].phase);
  }

  /** A replay returns a record it has validated; it was never the owner. */
  lemma ReplayCallerOk(s: State, t: State, c: nat, reply: Reply)
    requires Moves(s, t, c, Returned(reply)) && !OwnerOk(s, c, s.callers[c].request)
    requires reply.replayed && reply.result == Rebuild(reply.record.execution)
    requires Validates(reply.record, s.callers[c].request)
    ensures CallerOk(t, c, t.callers[c])
  {
    hide IdOf, RecordOk, Admitted, Validates, Rebuild;
  }

  lemma NotOwner(s: State, c: nat)
    requires c in s.callers && CallerOk(s, c, s.callers[c]) && (s.callers[c].phase.Permitted? || s.callers[c].phase.Waiting?)
    ensures !OwnerOk(s, c, s.callers[c].request)
  {
    hide IdOf, RecordOk, Admitted, WritingOk, ReturnedOk, PermitOk;
  }

  lemma ReplayKeeps(s: State, t: State, c: nat)
    requires Inv(s) && c in s.callers && (s.callers[c].phase.Permitted? || s.callers[c].phase.Waiting?)
    requires c in t.callers && (t.callers[c].phase.Returned? || t.callers[c].phase.Raised?)
    requires Moves(s, t, c, t.callers[c].phase)
    requires t.callers[c].phase.Returned? ==>
               && t.callers[c].phase.reply.replayed
               && t.callers[c].phase.reply.result == Rebuild(t.callers[c].phase.reply.record.execution)
               && Validates(t.callers[c].phase.reply.record, s.callers[c].request)
    ensures Inv(t)
  {
    hide CallsOk, SweepsOk, RecordsOk, VerdictsFinal, CallerOk, CallersOk, Validates, Rebuild, Moves, OwnerOk;
    var phase := t.callers[c].phase;
    if phase.Raised? {
      EndKeeps(s, t, c, phase);
    } else {
      CallerFact(s, c);
      NotOwner(s, c);
      ReplayCallerOk(s, t, c, phase.reply);
      MovesKeep(s, t, c, phase);
    }
  }

  lemma ReadPermittedKeeps(s: State, c: nat)
    requires Inv(s) && Enabled(s, ReadPermitted(c))
    ensures Inv(DoReadPermitted(s, c))
  {
    hide Inv, IdOf, RawId, ValidateId, Validates, Rebuild;
    ReplayKeeps(s, DoReadPermitted(s, c), c);
  }

  lemma PollKeeps(s: State, c: nat)
    requires Inv(s) && Enabled(s, Poll(c))
    ensures Inv(DoPoll(s, c))
  {
    hide Inv, IdOf, RawId, ValidateId, Validates, Rebuild;
    if DoPoll(s, c) != s {
      ReplayKeeps(s, DoPoll(s, c), c);
    }
  }

  lemma LeaveKeeps(s: State, step: Step)
    requires Inv(s) && Enabled(s, step) && (step.GiveUp? || step.Crash?)
    ensures Inv(Do(s, step))
  {
    hide CallsOk, SweepsOk, RecordsOk, VerdictsFinal, CallerOk, CallersOk;
    EndKeeps(s, Do(s, step), step.c, Do(s, step).callers[step.c].phase);
  }

  lemma GateOk(s: State, c: nat)
    requires Enabled(s, GateRaises(c)) && CallerOk(s, c, s.callers[c])
    ensures CallerOk(Do(s, GateRaises(c)), c, Do(s, GateRaises(c)).callers[c])
  {
    hide IdOf, RecordOk, Admitted;
  }

  lemma GateKeeps(s: State, c: nat)
    requires Inv(s) && Enabled(s, GateRaises(c))
    ensures Inv(Do(s, GateRaises(c)))
  {
    hide CallsOk, SweepsOk, RecordsOk, VerdictsFinal, CallerOk, CallersOk;
    CallerFact(s, c);
    GateOk(s, c);
    MovesKeep(s, Do(s, GateRaises(c)), c, Handling);
  }

  /** An admitted caller holds an ALLOW decision, so the gate never declines it. */
  lemma GateNeverDeclines(s: State, c: nat)
    requires Inv(s)
    ensures !Enabled(s, GateDeclines(c)) && !Enabled(s, Fetch(c))
  {
    hide IdOf, RecordOk, RecordsOk, SweepsOk, VerdictsFinal, CallsOk, CallersOk, WritingOk, ReturnedOk, PermitOk, OwnerOk;
    if c in s.callers {
      CallerFact(s, c);
    }
  }

  // ---------------------------------------------------------------- arrival

  lemma ArriveOk(s: State, c: nat, r: Request)
    requires RecordsOk(s) && c !in s.callers
    ensures Frame(s, Do(s, Arrive(c, r)), c)
    ensures CallerOk(Do(s, Arrive(c, r)), c, Caller(r, Arrived))
  {
    hide IdOf, RecordOk, Admitted;
  }

  lemma ArriveKeeps(s: State, c: nat, r: Request)
    requires Inv(s) && c !in s.callers
    ensures Inv(Do(s, Arrive(c, r)))
  {
    var t := Do(s, Arrive(c, r));
    hide CallerOk, CallersOk, CallsOk, SweepsOk, RecordsOk, VerdictsFinal, Frame;
    ArriveOk(s, c, r);
    RecordsSame(s, t, c);
    VerdictsSame(s, t, c);
    Assemble(s, t, c);
  }

  // ------------------------------------------------------------- the permit

  lemma LinkFrame(s: State, c: nat)
    requires RecordsOk(s) && Enabled(s, Link(c)) && RunKey(s.callers[c].request.effect) !in s.disk.permits
    ensures Frame(s, DoLink(s, c), c)
    ensures NoCallLogged(s, DoLink(s, c)) && OldSweeps(s, DoLink(s, c))
  {
    hide IdOf, RecordOk, RunKey, PermitOf;
  }

  lemma LinkRecords(s: State, c: nat)
    requires RecordsOk(s) && Enabled(s, Link(c))
    ensures RecordsOk(DoLink(s, c))
  {
    hide IdOf, RecordOk, RunKey, PermitOf;
  }

  lemma LinkVerdicts(s: State, c: nat)
    requires VerdictsFinal(s) && Enabled(s, Link(c))
    ensures VerdictsFinal(DoLink(s, c))
  {
    hide IdOf, RunKey, PermitOf;
  }

  lemma LinkOk(s: State, c: nat)
    requires Enabled(s, Link(c)) && CallerOk(s, c, s.callers[c]) && s.disk.permits.Keys == s.permitWinner.Keys
    ensures CallerOk(DoLink(s, c), c, DoLink(s, c).callers[c])
  {
    hide IdOf, RecordOk, RunKey, PermitOf, Admitted;
    var r := s.callers[c].request;
    assert RunKey(r.effect) !in s.disk.permits ==> DoLink(s, c).log[|s.log|] == Linked(c, RunKey(r.effect));
  }

  lemma PermitKeys(s: State)
    requires RecordsOk(s)
    ensures s.disk.permits.Keys == s.permitWinner.Keys
  {
    hide RecordOk, IdOf;
  }

  lemma LinkKeeps(s: State, c: nat)
    requires Inv(s) && Enabled(s, Link(c))
    ensures Inv(DoLink(s, c))
  {
    hide CallerOk, CallersOk, CallsOk, SweepsOk, RecordsOk, VerdictsFinal, RunKey, PermitOf;
    CallerFact(s, c);
    PermitKeys(s);
    LinkOk(s, c);
    if RunKey(s.callers[c].request.effect) in s.disk.permits {
      MovesKeep(s, DoLink(s, c), c, DoLink(s, c).callers[c].phase);
    } else {
      LinkWinsKeep(s, c);
    }
  }

  lemma LinkWinsKeep(s: State, c: nat)
    requires Inv(s) && Enabled(s, Link(c)) && RunKey(s.callers[c].request.effect) !in s.disk.permits
    requires CallerOk(DoLink(s, c), c, DoLink(s, c).callers[c])
    ensures Inv(DoLink(s, c))
  {
    hide CallerOk, CallersOk, CallsOk, SweepsOk, RecordsOk, VerdictsFinal, Frame, RunKey, PermitOf, OldSweeps, NoCallLogged;
    LinkFrame(s, c);
    LinkRecords(s, c);
    LinkVerdicts(s, c);
    Assemble(s, DoLink(s, c), c);
  }

  // ----------------------------------------------------------- the identity

  lemma FreshRecordOk(r: Request, now: int)
    ensures RecordOk(FreshRecord(r, now), r)
  {}

  lemma StageOk(s: State, c: nat, now: int)
    requires Enabled(s, Stage(c, now)) && CallerOk(s, c, s.callers[c])
    ensures CallerOk(DoStage(s, c, now), c, DoStage(s, c, now).callers[c])
  {
    var r := s.callers[c].request;
    FreshRecordOk(r, now);
    hide IdOf, RecordOk, ClaimOk, Admitted, IncidentOf, ComponentOf, ActionOf, CommandOf;
  }

  lemma StageKeeps(s: State, c: nat, now: int)
    requires Inv(s) && Enabled(s, Stage(c, now))
    ensures Inv(DoStage(s, c, now))
  {
    hide CallerOk, CallersOk, CallsOk, SweepsOk, RecordsOk, VerdictsFinal, ClaimOk, FreshRecord;
    CallerFact(s, c);
    StageOk(s, c, now);
    MovesKeep(s, DoStage(s, c, now), c, DoStage(s, c, now).callers[c].phase);
  }

  lemma PublishDiskFrame(s: State, c: nat)
    requires Enabled(s, Publish(c)) && !NameTaken(s.disk, IdOf(s.callers[c].request))
    ensures DiskFrame(s, DoPublish(s, c), c)
  {
    hide IdOf, Validates;
  }

  lemma PublishFrame(s: State, c: nat)
    requires RecordsOk(s) && Enabled(s, Publish(c)) && !NameTaken(s.disk, IdOf(s.callers[c].request))
    ensures Frame(s, DoPublish(s, c), c)
  {
    hide IdOf, RecordOk, Validates, DiskFrame;
    PublishDiskFrame(s, c);
  }

  lemma PublishQuiet(s: State, c: nat)
    requires Enabled(s, Publish(c))
    ensures NoCallLogged(s, DoPublish(s, c)) && OldSweeps(s, DoPublish(s, c))
  {
    hide IdOf, Validates;
  }

  lemma PublishRecords(s: State, c: nat)
    requires RecordsOk(s) && VerdictsFinal(s) && Enabled(s, Publish(c)) && !NameTaken(s.disk, IdOf(s.callers[c].request))
    requires RecordOk(s.disk.staging[c], s.callers[c].request) && s.disk.staging[c].status.Claimed?
    ensures RecordsOk(DoPublish(s, c)) && VerdictsFinal(DoPublish(s, c))
  {
    hide IdOf, RecordOk, Validates;
  }

  lemma PublishTrail(s: State, c: nat)
    requires Enabled(s, Publish(c)) && LinkedBy(s.log, c, s.callers[c].request)
    requires !NameTaken(s.disk, IdOf(s.callers[c].request))
    ensures LinkedBy(DoPublish(s, c).log, c, s.callers[c].request)
    ensures PublishedBy(DoPublish(s, c).log, c, s.callers[c].request)
  {
    hide IdOf, Validates, NameTaken, RunKey;
    var t, r := DoPublish(s, c), s.callers[c].request;
    TrailsGrow(s.log, Published(c, IdOf(r)), c, r);
    assert t.log[..|s.log|] == s.log;
    assert PublishedAt(t.log, |s.log|, c, r);
  }

  lemma PublishOk(s: State, c: nat)
    requires Enabled(s, Publish(c)) && CallerOk(s, c, s.callers[c])
    requires !NameTaken(s.disk, IdOf(s.callers[c].request))
    ensures CallerOk(DoPublish(s, c), c, DoPublish(s, c).callers[c])
  {
    hide IdOf, RecordOk, Admitted, RunKey, PermitOf, Validates, NameTaken, LinkedBy, PublishedBy, ArmedBy;
    PublishTrail(s, c);
  }

  lemma PublishKeeps(s: State, c: nat)
    requires Inv(s) && Enabled(s, Publish(c))
    ensures Inv(DoPublish(s, c))
  {
    hide RecordsOk, VerdictsFinal, IdOf, NameTaken, CallsOk, SweepsOk, RecordOk, CallerOk, CallersOk, Validates;
    CallerFact(s, c);
    if NameTaken(s.disk, IdOf(s.callers[c].request)) {
      PublishLosesOk(s, c);
      MovesKeep(s, DoPublish(s, c), c, Waiting);
    } else {
      PublishWinsKeep(s, c);
    }
  }

  lemma PublishLosesOk(s: State, c: nat)
    requires Enabled(s, Publish(c)) && CallerOk(s, c, s.callers[c]) && NameTaken(s.disk, IdOf(s.callers[c].request))
    ensures CallerOk(DoPublish(s, c), c, DoPublish(s, c).callers[c])
  {
    hide IdOf, RecordOk, Admitted, RunKey, PermitOf, Validates, NameTaken;
  }

  lemma PublishWinsKeep(s: State, c: nat)
    requires Inv(s) && Enabled(s, Publish(c)) && !NameTaken(s.disk, IdOf(s.callers[c].request))
    requires CallerOk(s, c, s.callers[c])
    ensures Inv(DoPublish(s, c))
  {
    var t := DoPublish(s, c);
    hide RecordsOk, VerdictsFinal, CallsOk, SweepsOk, CallersOk, IdOf, NameTaken, RecordOk, Validates, Frame, OldSweeps, NoCallLogged;
    PublishFrame(s, c);
    PublishQuiet(s, c);
    PublishRecords(s, c);
    PublishOk(s, c);
    hide CallerOk;
    Assemble(s, t, c);
  }

  // ------------------------------------------------------------ transitions

  /** The record written for an owner is again one of its identity. */
  lemma PlannedRecordOk(q: Caller, current: Record, now: int)
    requires RecordOk(current, q.request) && !HasVerdict(current)
    requires q.phase.Won? || q.phase.Finished? || q.phase.Declined? || q.phase.Handling?
    ensures MoveOk(q, current, Transition(current, PlanOf(q).status, PlanOf(q).execution, PlanOf(q).reason, now))
  {
    hide IdOf, IncidentOf, ComponentOf, ActionOf, CommandOf;
  }

  ghost predicate MoveOk(q: Caller, current: Record, move: Move) {
    && (move.Write? ==>
          && RecordOk(move.next, q.request)
          && SameIdentity(move.next, current)
          && !move.next.status.Claimed?
          && (move.next.status.Running? <==> q.phase.Won?)
          && (HasVerdict(move.next) <==> AfterRecord(q, move.next).Returned?)
          && (AfterRecord(q, move.next).Returned? ==>
                ReplyOk(AfterRecord(q, move.next).reply, q.request, move.next)))
    && (move.Kept? ==> !q.phase.Won? && !AfterRecord(q, move.record).Returned?)
  }

  lemma LoadMoves(s: State, c: nat, now: int)
    requires Enabled(s, Load(c, now))
    ensures Moves(s, DoLoad(s, c, now), c, DoLoad(s, c, now).callers[c].phase)
    ensures !BeforeCall(s.callers[c].phase) ==> !BeforeCall(DoLoad(s, c, now).callers[c].phase)
    ensures Owns(DoLoad(s, c, now).callers[c].phase) ==> Owns(s.callers[c].phase)
  {
    hide IdOf, PlanOf, Transition;
  }

  lemma LoadOk(s: State, c: nat, now: int)
    requires Enabled(s, Load(c, now)) && CallerOk(s, c, s.callers[c])
    requires IdOf(s.callers[c].request) in s.disk.records
    requires MoveOk(s.callers[c], s.disk.records[IdOf(s.callers[c].request)], LoadedMove(s, c, now))
    ensures c in DoLoad(s, c, now).callers
    ensures CallerOk(DoLoad(s, c, now), c, DoLoad(s, c, now).callers[c])
  {
    hide IdOf, RecordOk, Admitted, RunKey, PermitOf, Transition, PlanOf, ReplyOk, HasVerdict, LinkedBy, PublishedBy, ArmedBy, CommandOf;
  }

  function LoadedMove(s: State, c: nat, now: int): Move
    requires c in s.callers && IdOf(s.callers[c].request) in s.disk.records
  {
    var plan := PlanOf(s.callers[c]);
    Transition(s.disk.records[IdOf(s.callers[c].request)], plan.status, plan.execution, plan.reason, now)
  }

  /** An owner's record is there, is its own and has no verdict. */
  lemma OwnedRecord(s: State, c: nat)
    requires RecordsOk(s) && VerdictsFinal(s) && c in s.callers && CallerOk(s, c, s.callers[c]) && Owns(s.callers[c].phase)
    ensures IdOf(s.callers[c].request) in s.disk.records
    ensures RecordOk(s.disk.records[IdOf(s.callers[c].request)], s.callers[c].request)
    ensures !HasVerdict(s.disk.records[IdOf(s.callers[c].request)])
  {
    hide IdOf, RecordOk, Admitted, WritingOk, ReturnedOk, PermitOk;
  }

  lemma LoadKeeps(s: State, c: nat, now: int)
    requires Inv(s) && Enabled(s, Load(c, now))
    ensures Inv(DoLoad(s, c, now))
  {
    hide CallerOk, CallersOk, IdOf, CallsOk, SweepsOk, VerdictsFinal, RecordsOk, RecordOk, HasVerdict, DoLoad, Moves, MoveOk, PlanOf, Transition;
    CallerFact(s, c);
    OwnedRecord(s, c);
    PlannedRecordOk(s.callers[c], s.disk.records[IdOf(s.callers[c].request)], now);
    LoadOk(s, c, now);
    LoadMoves(s, c, now);
    MovesKeep(s, DoLoad(s, c, now), c, DoLoad(s, c, now).callers[c].phase);
  }

  lemma StoreFrame(s: State, c: nat)
    requires RecordsOk(s) && Enabled(s, Store(c)) && WritingOk(s, c, s.callers[c])
    ensures Frame(s, DoStore(s, c), c)
    ensures NoCallLogged(s, DoStore(s, c)) && OldSweeps(s, DoStore(s, c))
  {
    hide IdOf, RecordOk, ReplyOk;
  }

  lemma StoreRecords(s: State, c: nat)
    requires RecordsOk(s) && Enabled(s, Store(c))
    requires WritingOk(s, c, s.callers[c]) && OwnerOk(s, c, s.callers[c].request)
    ensures RecordsOk(DoStore(s, c))
  {
    hide IdOf, RecordOk, ReplyOk;
  }

  lemma StoreVerdicts(s: State, c: nat)
    requires RecordsOk(s) && VerdictsFinal(s) && Enabled(s, Store(c))
    requires WritingOk(s, c, s.callers[c]) && OwnerOk(s, c, s.callers[c].request)
    ensures VerdictsFinal(DoStore(s, c))
  {
    hide IdOf, RecordOk, ReplyOk;
  }

  lemma StoreOk(s: State, c: nat)
    requires Enabled(s, Store(c)) && CallerOk(s, c, s.callers[c])
    requires Frame(s, DoStore(s, c), c)
    ensures CallerOk(DoStore(s, c), c, DoStore(s, c).callers[c])
  {
    hide IdOf, RecordOk, Admitted, RunKey, PermitOf, Validates, Frame;
    var t, q := DoStore(s, c), s.callers[c];
    FrameTrails(s, t, c, c, q.request);
    assert t.log[..|s.log|] == s.log;
    if q.phase.next.status.Running? {
      assert ArmedAt(t.log, |s.log|, c, q.request);
    }
  }

  lemma WriterFacts(s: State, c: nat)
    requires c in s.callers && CallerOk(s, c, s.callers[c]) && s.callers[c].phase.Writing?
    ensures WritingOk(s, c, s.callers[c]) && OwnerOk(s, c, s.callers[c].request)
    ensures !BeforeCall(s.callers[c].phase) ==> !BeforeCall(s.callers[c].phase.after)
  {
    hide IdOf, RecordOk, Admitted, PermitOk;
  }

  lemma StoreKeeps(s: State, c: nat)
    requires Inv(s) && Enabled(s, Store(c))
    ensures Inv(DoStore(s, c))
  {
    hide Frame, CallerOk, CallersOk, RecordsOk, SweepsOk, CallsOk, VerdictsFinal, IdOf, OldSweeps, NoCallLogged, WritingOk, OwnerOk;
    CallerFact(s, c);
    WriterFacts(s, c);
    StoreFrame(s, c);
    StoreRecords(s, c);
    StoreVerdicts(s, c);
    StoreOk(s, c);
    Assemble(s, DoStore(s, c), c);
  }

  // --------------------------------------------------------------- the call

  lemma CallFrame(s: State, c: nat, outcome: Option<Output>)
    requires RecordsOk(s) && Enabled(s, Call(c, outcome))
    ensures Frame(s, Do(s, Call(c, outcome)), c) && OldSweeps(s, Do(s, Call(c, outcome)))
  {
    hide IdOf, RecordOk;
  }

  lemma CallCallerOk(s: State, c: nat, outcome: Option<Output>)
    requires Enabled(s, Call(c, outcome)) && CallerOk(s, c, s.callers[c])
    requires Frame(s, Do(s, Call(c, outcome)), c)
    ensures CallerOk(Do(s, Call(c, outcome)), c, Do(s, Call(c, outcome)).callers[c])
  {
    hide IdOf, RecordOk, Admitted, Frame;
    FrameTrails(s, Do(s, Call(c, outcome)), c, c, s.callers[c].request);
  }

  lemma CallNewOk(s: State, c: nat, outcome: Option<Output>)
    requires Enabled(s, Call(c, outcome)) && CallerOk(s, c, s.callers[c])
    ensures |Do(s, Call(c, outcome)).log| == |s.log| + 1 && CallOk(Do(s, Call(c, outcome)), |s.log|)
  {
    var t := Do(s, Call(c, outcome));
    hide IdOf, RecordOk, Admitted, RunKey, PermitOf;
    assert t.log[..|s.log|] == s.log;
  }

  lemma NoEarlierCall(s: State, c: nat, i: nat)
    requires i < |s.log| && CallOk(s, i) && s.log[i].Called? && c in s.callers && BeforeCall(s.callers[c].phase)
    ensures s.log[i].c != c
  {}

  /** The first call of c comes on top of the calls of others. */
  lemma CallsGrow(s: State, t: State, c: nat)
    requires CallsOk(s) && Frame(s, t, c) && c in s.callers && BeforeCall(s.callers[c].phase)
    requires |t.log| == |s.log| + 1 && t.log[..|s.log|] == s.log && CallOk(t, |s.log|)
    requires t.log[|s.log|].Called? && t.log[|s.log|].c == c
    ensures CallsOk(t)
  {
    hide Frame;
    forall i: nat | i < |s.log| ensures t.log[i] == s.log[i] && CallOk(s, i) && CallOk(t, i) {
      assert t.log[i] == t.log[..|s.log|][i];
      assert CallOk(s, i);
      FrameCall(s, t, c, i);
    }
    forall i: nat, j: nat | i < j < |t.log| && t.log[i].Called? && t.log[j].Called? ensures t.log[i].c != t.log[j].c {
      if j == |s.log| {
        NoEarlierCall(s, c, i);
      }
    }
  }

  lemma CallRecordsOk(s: State, c: nat, outcome: Option<Output>)
    requires Inv(s) && Enabled(s, Call(c, outcome)) && Frame(s, Do(s, Call(c, outcome)), c)
    ensures RecordsOk(Do(s, Call(c, outcome))) && VerdictsFinal(Do(s, Call(c, outcome)))
  {
    hide CallersOk, RecordsOk, SweepsOk, CallsOk, VerdictsFinal, Frame;
    RecordsSame(s, Do(s, Call(c, outcome)), c);
    VerdictsSame(s, Do(s, Call(c, outcome)), c);
  }

  lemma CallKeeps(s: State, c: nat, outcome: Option<Output>)
    requires Inv(s) && Enabled(s, Call(c, outcome))
    ensures Inv(Do(s, Call(c, outcome)))
  {
    var t := Do(s, Call(c, outcome));
    hide CallerOk, CallersOk, RecordsOk, SweepsOk, CallsOk, CallOk, VerdictsFinal, Frame, SweepOk;
    CallerFact(s, c);
    CallFrame(s, c, outcome);
    CallCallerOk(s, c, outcome);
    CallNewOk(s, c, outcome);
    CallsGrow(s, t, c);
    CallRecordsOk(s, c, outcome);
    CallersKept(s, t, c);
    SweepsKept(s, t, c);
  }

  // ----------------------------------------------------------------- sweeps

  lemma SweptOk(s: State, id: string, now: int)
    requires RecordsOk(s) && id in s.disk.records
    ensures var move := Transition(s.disk.records[id], Unknown, None, Some(INTERRUPTED), now);
            move.Write? ==> SweepOk(s, move.next)
  {
    hide IdOf, IncidentOf, ComponentOf, ActionOf, CommandOf;
    assert RecordOk(s.disk.records[id], s.callers[s.identityWinner[id]].request);
  }

  lemma SweepFrame(s: State, t: State)
    requires RecordsOk(s) && t.callers == s.callers && t.disk == s.disk && SameRecords(s, t) && t.log == s.log
    ensures Frame(s, t, -1) && NoCallLogged(s, t)
  {
    hide RecordOk, IdOf;
  }

  /** Steps of a sweep that leave the disk alone. */
  lemma SweepIdleKeeps(s: State, t: State)
    requires Inv(s) && t.callers == s.callers && t.disk == s.disk && SameRecords(s, t) && t.log == s.log
    requires forall k :: k in t.sweeps ==> (k in s.sweeps && t.sweeps[k] == s.sweeps[k]) || SweepOk(t, t.sweeps[k])
    ensures Inv(t)
  {
    hide RecordsOk, SweepsOk, SweepOk, CallersOk, CallsOk, VerdictsFinal, CallerOk, CallOk, Frame, NoCallLogged;
    SweepFrame(s, t);
    RecordsSame(s, t, -1);
    VerdictsSame(s, t, -1);
    CallersKept(s, t, -1);
    SweepsKept(s, t, -1);
    CallsKeptQuietly(s, t);
  }

  lemma CallsKeptQuietly(s: State, t: State)
    requires CallsOk(s) && Frame(s, t, -1) && NoCallLogged(s, t)
    ensures CallsOk(t)
  {
    hide CallsOk, Frame;
    CallsKept(s, t, -1);
  }

  lemma SweepStays(s: State, t: State, next: Record)
    requires SweepOk(s, next) && t.callers == s.callers && t.disk == s.disk && SameRecords(s, t)
    ensures SweepOk(t, next)
  {
    hide RecordOk, IdOf;
  }

  lemma SweepLoadKeeps(s: State, k: nat, id: string, now: int)
    requires Inv(s) && Enabled(s, SweepLoad(k, id, now))
    ensures Inv(DoSweepLoad(s, k, id, now))
  {
    var t := DoSweepLoad(s, k, id, now);
    hide RecordsOk, SweepsOk, SweepOk, CallersOk, CallsOk, VerdictsFinal, Transition;
    SweptOk(s, id, now);
    if t != s {
      SweepStays(s, t, t.sweeps[k]);
      SweepIdleKeeps(s, t);
    }
  }

  lemma SweepStopKeeps(s: State, k: nat)
    requires Inv(s) && Enabled(s, SweepStop(k))
    ensures Inv(Do(s, SweepStop(k)))
  {
    hide RecordsOk, SweepsOk, SweepOk, CallersOk, CallsOk, VerdictsFinal;
    SweepIdleKeeps(s, Do(s, SweepStop(k)));
  }

  lemma SweepStoreFrame(s: State, k: nat)
    requires RecordsOk(s) && k in s.sweeps && SweepOk(s, s.sweeps[k])
    ensures Frame(s, DoSweepStore(s, k), -1)
    ensures NoCallLogged(s, DoSweepStore(s, k)) && OldSweeps(s, DoSweepStore(s, k))
  {
    hide IdOf, RecordOk;
  }

  lemma SweepStoreRecords(s: State, k: nat)
    requires RecordsOk(s) && VerdictsFinal(s) && k in s.sweeps && SweepOk(s, s.sweeps[k])
    ensures RecordsOk(DoSweepStore(s, k)) && VerdictsFinal(DoSweepStore(s, k))
  {
    hide IdOf;
    assert s.sweeps[k].executionId == IdOf(s.callers[s.identityWinner[s.sweeps[k].executionId]].request);
    hide RecordOk;
  }

  lemma SweepStoreKeeps(s: State, k: nat)
    requires Inv(s) && Enabled(s, SweepStore(k))
    ensures Inv(DoSweepStore(s, k))
  {
    assert SweepOk(s, s.sweeps[k]);
    hide RecordsOk, SweepsOk, SweepOk, CallersOk, CallsOk, VerdictsFinal, CallerOk, Frame, OldSweeps, NoCallLogged;
    SweepStoreFrame(s, k);
    SweepStoreRecords(s, k);
    Assemble(s, DoSweepStore(s, k), -1);
  }

  // ------------------------------------------------------------------- runs

  /** Every step keeps the invariant. */
  lemma StepKeeps(s: State, step: Step)
    requires Inv(s) && Enabled(s, step)
    ensures Inv(Do(s, step))
  {
    hide Inv, DoLink, DoReadPermitted, DoStage, DoPublish, DoPoll, DoLoad, DoStore, DoSweepLoad, DoSweepStore;
    match step
    case Arrive(c, r) => ArriveKeeps(s, c, r);
    case Admit(c) => AdmitKeeps(s, c);
    case Link(c) => LinkKeeps(s, c);
    case ReadPermitted(c) => ReadPermittedKeeps(s, c);
    case Stage(c, now) => StageKeeps(s, c, now);
    case Publish(c) => PublishKeeps(s, c);
    case Poll(c) => PollKeeps(s, c);
    case GiveUp(c) => LeaveKeeps(s, step);
    case Load(c, now) => LoadKeeps(s, c, now);
    case Store(c) => StoreKeeps(s, c);
    case Call(c, outcome) => CallKeeps(s, c, outcome);
    case GateRaises(c) => GateKeeps(s, c);
    case GateDeclines(c) => GateNeverDeclines(s, c);
    case Fetch(c) => GateNeverDeclines(s, c);
    case Crash(c) => LeaveKeeps(s, step);
    case SweepLoad(k, id, now) => SweepLoadKeeps(s, k, id, now);
    case SweepStore(k) => SweepStoreKeeps(s, k);
    case SweepStop(k) => SweepStopKeeps(s, k);
  }

  lemma InitHolds()
    ensures Inv(Init())
  {}

  /** So the invariant holds after every run. */
  lemma {:induction false} RunsKeep(s: State, steps: seq<Step>)
    requires Inv(s) && Runs(s, steps)
    ensures Inv(After(s, steps))
    decreases |steps|
  {
    hide Inv, Enabled, Do;
    if steps != [] {
      StepKeeps(s, steps[0]);
      RunsKeep(Do(s, steps[0]), steps[1..]);
    }
  }
}
