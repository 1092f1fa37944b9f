/**
 What holds in every state the protocol can reach, whatever crashes, sweeps and
 interleavings of half-done transitions came before.
 */
module EffectInvariant {
  import opened Values
  import opened JournalDisk
  import opened EffectProtocol

  // ---------------------------------------------------------- trails in the log

  ghost predicate LinkedBy(log: seq<Event>, c: nat, r: Request) {
    r.Bound? ==> exists i | 0 <= i < |log| :: log[i] == Linked(c, RunKey(r.effect))
  }

  ghost predicate PublishedAt(log: seq<Event>, i: int, c: nat, r: Request) {
    0 <= i < |log| && log[i] == Published(c, IdOf(r)) && LinkedBy(log[..i], c, r)
  }

  ghost predicate PublishedBy(log: seq<Event>, c: nat, r: Request) {
    exists i :: PublishedAt(log, i, c, r)
  }

  ghost predicate ArmedAt(log: seq<Event>, i: int, c: nat, r: Request) {
    0 <= i < |log| && log[i] == Stored(c, IdOf(r), Running) && PublishedBy(log[..i], c, r)
  }

  /** Permit, then identity, then RUNNING, all by caller c, in this order. */
  ghost predicate ArmedBy(log: seq<Event>, c: nat, r: Request) {
    exists i :: ArmedAt(log, i, c, r)
  }

  lemma TrailsGrow(log: seq<Event>, e: Event, c: nat, r: Request)
    ensures LinkedBy(log, c, r) ==> LinkedBy(log + [e], c, r)
    ensures PublishedBy(log, c, r) ==> PublishedBy(log + [e], c, r)
    ensures ArmedBy(log, c, r) ==> ArmedBy(log + [e], c, r)
  {
    var more := log + [e];
    if r.Bound? && LinkedBy(log, c, r) {
      var i :| 0 <= i < |log| && log[i] == Linked(c, RunKey(r.effect));
      assert more[i] == log[i];
    }
    if PublishedBy(log, c, r) {
      var i :| PublishedAt(log, i, c, r);
      assert more[..i] == log[..i];
      assert PublishedAt(more, i, c, r);
    }
    if ArmedBy(log, c, r) {
      var i :| ArmedAt(log, i, c, r);
      assert more[..i] == log[..i];
      assert ArmedAt(more, i, c, r);
    }
  }

  // ------------------------------------------------------------------- phases

  /** Phases from which a live caller already holds the permit of its run, if it needs one. */
  predicate HoldsPermit(p: Phase) {
    p.Ready? || p.Staged? || p.Waiting? || Owns(p)
  }

  /** Phases in which a live caller is the one that published the identity. */
  predicate Owns(p: Phase) {
    p.Won? || p.Writing? || p.Armed? || p.Finished? || p.Declined? || p.Fetching? || p.Handling?
  }

  /** Phases after which the executor may still be called. */
  predicate BeforeCall(p: Phase) {
    p.Arrived? || p.Linking? || p.Permitted? || p.Ready? || p.Staged? || p.Waiting? || p.Won? || p.Armed?
    || (p.Writing? && p.after.Armed?)
  }

  // ------------------------------------------------------------------ records

  ghost predicate RecordOk(record: Record, r: Request) {
    && record.executionId == IdOf(r)
    && record.incidentId == IncidentOf(r)
    && record.componentId == ComponentOf(r)
    && record.action == ActionOf(r)
    && record.command == CommandOf(r)
    && (record.status.Claimed? || record.status.Running? ==> record.execution.None?)
    && (HasVerdict(record) ==>
          && record.execution.Some?
          && record.execution.value.success == record.status.Succeeded?
          && record.execution.value.success == (record.execution.value.exitCode == 0)
          && (r.Bound? ==> record.execution.value.command == CommandOf(r)))
  }

  predicate HasVerdict(record: Record) {
    record.status.Succeeded? || record.status.Failed?
  }

  ghost predicate RecordsOk(s: State) {
    && s.disk.permits.Keys == s.permitWinner.Keys
    && s.disk.records.Keys == s.identityWinner.Keys
    && (forall run :: run in s.permitWinner ==> s.permitWinner[run] in s.callers)
    && (forall id :: id in s.identityWinner ==>
          && s.identityWinner[id] in s.callers
          && IdOf(s.callers[s.identityWinner[id]].request) == id
          && RecordOk(s.disk.records[id], s.callers[s.identityWinner[id]].request))
  }

  ghost predicate SweepOk(s: State, next: Record) {
    && next.executionId in s.disk.records
    && next.executionId in s.identityWinner
    && s.identityWinner[next.executionId] in s.callers
    && next.status.Unknown?
    && SameIdentity(next, s.disk.records[next.executionId])
    && RecordOk(next, s.callers[s.identityWinner[next.executionId]].request)
  }

  ghost predicate SweepsOk(s: State) {
    forall k :: k in s.sweeps ==> SweepOk(s, s.sweeps[k])
  }

  // ------------------------------------------------------------------ callers

  ghost predicate WritingOk(s: State, c: nat, q: Caller) {
    q.phase.Writing? ==>
      var id, next, after := IdOf(q.request), q.phase.next, q.phase.after;
      && id in s.disk.records
      && RecordOk(next, q.request)
      && SameIdentity(next, s.disk.records[id])
      && !next.status.Claimed?
      && (after.Armed? || after.Handling? || after.Raised? || after.Fetching? || after.Returned?)
      && (after.Armed? <==> next.status.Running?)
      && (after.Returned? <==> HasVerdict(next))
      && (after.Returned? ==> ReplyOk(after.reply, q.request, next))
  }

  ghost predicate ReplyOk(reply: Reply, r: Request, record: Record) {
    && reply.record == record
    && !reply.replayed
    && reply.result.Some?
    && record.execution == Some(Keep(reply.result.value))
  }

  ghost predicate PermitOk(s: State, c: nat, r: Request) {
    r.Bound? ==>
      && RunKey(r.effect) in s.permitWinner
      && s.permitWinner[RunKey(r.effect)] == c
      && RunKey(r.effect) in s.disk.permits
      && s.disk.permits[RunKey(r.effect)] == PermitOf(r.effect, r.authorization)
  }

  ghost predicate OwnerOk(s: State, c: nat, r: Request) {
    && IdOf(r) in s.identityWinner
    && s.identityWinner[IdOf(r)] == c
  }

  ghost predicate ReturnedOk(s: State, c: nat, q: Caller) {
    q.phase.Returned? ==>
      var reply := q.phase.reply;
      && (reply.replayed ==>
            && reply.result == Rebuild(reply.record.execution)
            && Validates(reply.record, q.request)
            && !OwnerOk(s, c, q.request))
      && (!reply.replayed ==>
            && OwnerOk(s, c, q.request)
            && ReplyOk(reply, q.request, reply.record)
            && RecordOk(reply.record, q.request)
            && HasVerdict(reply.record))
  }

  ghost predicate CallerOk(s: State, c: nat, q: Caller) {
    var r, p := q.request, q.phase;
    && (!Ended(p) && !p.Arrived? ==> Admitted(r))
    && (p.Linking? || p.Permitted? ==> r.Bound?)
    && (p.Staged? ==> ClaimOk(r) && c in s.disk.staging && s.disk.staging[c].status.Claimed?
                      && s.disk.staging[c].execution.None? && RecordOk(s.disk.staging[c], r))
    && (HoldsPermit(p) ==> PermitOk(s, c, r) && LinkedBy(s.log, c, r))
    && (Owns(p) ==> OwnerOk(s, c, r) && PublishedBy(s.log, c, r))
    && (p.Armed? || p.Finished? ==> ArmedBy(s.log, c, r))
    && (!Owns(p) && !Ended(p) ==> !OwnerOk(s, c, r))
    && !p.Declined? && !p.Fetching?
    && (p.Writing? ==> !p.after.Fetching?)
    && WritingOk(s, c, q)
    && ReturnedOk(s, c, q)
  }

  ghost predicate CallersOk(s: State) {
    forall c :: c in s.callers ==> CallerOk(s, c, s.callers[c])
  }

  /** A recorded verdict means that its owner has nothing left to write. */
  ghost predicate VerdictsFinal(s: State) {
    forall id ::
      (&& id in s.disk.records
       && HasVerdict(s.disk.records[id])
       && id in s.identityWinner
       && s.identityWinner[id] in s.callers)
      ==> !Owns(s.callers[s.identityWinner[id]].phase)
  }

  // ---------------------------------------------------------------- the calls

  ghost predicate CallOk(s: State, i: nat)
    requires i < |s.log|
  {
    s.log[i].Called? ==>
      var c, r := s.log[i].c, s.log[i].request;
      && c in s.callers
      && s.callers[c].request == r
      && !BeforeCall(s.callers[c].phase)
      && OwnerOk(s, c, r)
      && (r.Bound? ==> RunKey(r.effect) in s.permitWinner && s.permitWinner[RunKey(r.effect)] == c)
      && ArmedBy(s.log[..i], c, r)
  }

  ghost predicate CallsOk(s: State) {
    && (forall i: nat :: i < |s.log| ==> CallOk(s, i))
    && (forall i: nat, j: nat :: i < j < |s.log| && s.log[i].Called? && s.log[j].Called? ==> s.log[i].c != s.log[j].c)
  }

  ghost predicate Inv(s: State) {
    && RecordsOk(s)
    && SweepsOk(s)
    && CallersOk(s)
    && VerdictsFinal(s)
    && CallsOk(s)
  }

  // ------------------------------------------------------------- preservation

  /** What a step of caller c (or of a sweep, with c == -1) leaves alone. */
  ghost predicate Frame(s: State, t: State, c: int) {
    CallersFrame(s, t, c) && WinnersFrame(s, t, c) && DiskFrame(s, t, c) && s.log <= t.log && |t.log| <= |s.log| + 1
  }

  ghost predicate CallersFrame(s: State, t: State, c: int) {
    && (forall d :: d in s.callers ==> d in t.callers && t.callers[d].request == s.callers[d].request)
    && (forall d :: d in s.callers && d != c ==> t.callers[d] == s.callers[d])
    && (forall d :: d in t.callers && d != c ==> d in s.callers)
  }

  ghost predicate WinnersFrame(s: State, t: State, c: int) {
    && (forall run :: run in s.permitWinner ==> run in t.permitWinner && t.permitWinner[run] == s.permitWinner[run])
    && (forall run :: run in t.permitWinner && run !in s.permitWinner ==> t.permitWinner[run] == c)
    && (forall id :: id in s.identityWinner ==> id in t.identityWinner && t.identityWinner[id] == s.identityWinner[id])
    && (forall id :: id in t.identityWinner && id !in s.identityWinner ==> t.identityWinner[id] == c)
  }

  ghost predicate DiskFrame(s: State, t: State, c: int) {
    && KeepsPermits(s.disk, t.disk)
    && KeepsIdentities(s.disk, t.disk)
    && (forall d :: d in s.disk.staging && d != c ==> d in t.disk.staging && t.disk.staging[d] == s.disk.staging[d])
  }

  lemma FrameTrails(s: State, t: State, c: int, d: nat, r: Request)
    requires Frame(s, t, c)
    ensures LinkedBy(s.log, d, r) ==> LinkedBy(t.log, d, r)
    ensures PublishedBy(s.log, d, r) ==> PublishedBy(t.log, d, r)
    ensures ArmedBy(s.log, d, r) ==> ArmedBy(t.log, d, r)
  {
    if t.log != s.log {
      var e := t.log[|s.log|];
      assert t.log == s.log + [e];
      TrailsGrow(s.log, e, d, r);
    }
  }

  lemma FrameCaller(s: State, t: State, c: int, d: nat)
    requires Frame(s, t, c) && d != c && d in s.callers
    requires CallerOk(s, d, s.callers[d])
    ensures CallerOk(t, d, t.callers[d])
  {
    FrameTrails(s, t, c, d, s.callers[d].request);
  }

  lemma FrameCall(s: State, t: State, c: int, i: nat)
    requires Frame(s, t, c) && i < |s.log| && CallOk(s, i)
    requires c >= 0 && c in s.callers && !BeforeCall(s.callers[c].phase) ==> !BeforeCall(t.callers[c].phase)
    ensures CallOk(t, i)
  {
    assert t.log[i] == s.log[i] && t.log[..i] == s.log[..i];
  }

  lemma FrameSweep(s: State, t: State, c: int, next: Record)
    requires Frame(s, t, c) && SweepOk(s, next)
    ensures SweepOk(t, next)
  {}

  ghost predicate NoCallLogged(s: State, t: State) {
    t.log == s.log || (|t.log| > |s.log| && !t.log[|s.log|].Called?)
  }

  /** A step that logs no call keeps what is known of the calls. */
  lemma CallsKept(s: State, t: State, c: int)
    requires Frame(s, t, c) && CallsOk(s)
    requires c >= 0 && c in s.callers && !BeforeCall(s.callers[c].phase) ==> !BeforeCall(t.callers[c].phase)
    requires NoCallLogged(s, t)
    ensures CallsOk(t)
  {
    forall i: nat | i < |t.log| ensures CallOk(t, i) {
      if i < |s.log| {
        assert CallOk(s, i);
        FrameCall(s, t, c, i);
      }
    }
  }

  lemma CallersKept(s: State, t: State, c: int)
    requires Frame(s, t, c) && CallersOk(s)
    requires c >= 0 && c in t.callers ==> CallerOk(t, c, t.callers[c])
    ensures CallersOk(t)
  {
    forall d | d in t.callers ensures CallerOk(t, d, t.callers[d]) {
      if d != c { FrameCaller(s, t, c, d); }
    }
  }

  lemma SweepsKept(s: State, t: State, c: int)
    requires Frame(s, t, c) && SweepsOk(s)
    requires forall k :: k in t.sweeps ==> (k in s.sweeps && t.sweeps[k] == s.sweeps[k]) || SweepOk(t, t.sweeps[k])
    ensures SweepsOk(t)
  {
    forall k | k in t.sweeps ensures SweepOk(t, t.sweeps[k]) {
      if k in s.sweeps && t.sweeps[k] == s.sweeps[k] { FrameSweep(s, t, c, s.sweeps[k]); }
    }
  }

  // ------------------------------------------------- assembling the invariant

  ghost predicate OldSweeps(s: State, t: State) {
    forall k :: k in t.sweeps ==> k in s.sweeps && t.sweeps[k] == s.sweeps[k]
  }

  ghost predicate ActorOk(s: State, t: State, c: int) {
    && (c >= 0 && c in t.callers ==> CallerOk(t, c, t.callers[c]))
    && (c >= 0 && c in s.callers && c in t.callers && !BeforeCall(s.callers[c].phase) ==> !BeforeCall(t.callers[c].phase))
  }

  lemma Assemble(s: State, t: State, c: int)
    requires Inv(s) && Frame(s, t, c) && ActorOk(s, t, c) && RecordsOk(t) && VerdictsFinal(t)
    requires OldSweeps(s, t) && NoCallLogged(s, t)
    ensures Inv(t)
  {
    hide RecordsOk, VerdictsFinal, CallerOk, CallOk, SweepOk;
    CallersKept(s, t, c);
    CallsKept(s, t, c);
    SweepsKept(s, t, c);
  }

  ghost predicate SameRecords(s: State, t: State) {
    && t.disk.permits == s.disk.permits && t.disk.records == s.disk.records
    && t.permitWinner == s.permitWinner && t.identityWinner == s.identityWinner
  }

  lemma RecordsSame(s: State, t: State, c: int)
    requires RecordsOk(s) && Frame(s, t, c) && SameRecords(s, t)
    ensures RecordsOk(t)
  {
    hide RecordOk, IdOf;
  }

  lemma VerdictsSame(s: State, t: State, c: int)
    requires RecordsOk(s) && VerdictsFinal(s) && Frame(s, t, c) && SameRecords(s, t)
    requires c >= 0 && c in s.callers && Owns(t.callers[c].phase) ==> Owns(s.callers[c].phase)
    ensures VerdictsFinal(t)
  {
    hide RecordOk, IdOf;
  }

  /** Steps that only move caller c to another phase, and may touch its own staging directory. */
  ghost predicate Moves(s: State, t: State, c: nat, phase: Phase) {
    && c in s.callers
    && t.callers == s.callers[c := s.callers[c].(phase := phase)]
    && SameRecords(s, t)
    && (forall d :: d in s.disk.staging && d != c ==> d in t.disk.staging && t.disk.staging[d] == s.disk.staging[d])
    && t.sweeps == s.sweeps
    && t.log == s.log
  }

  lemma MovesFrame(s: State, t: State, c: nat, phase: Phase)
    requires Moves(s, t, c, phase) && RecordsOk(s)
    ensures Frame(s, t, c) && OldSweeps(s, t) && NoCallLogged(s, t)
  {
    hide RecordOk, IdOf;
  }

  lemma MovesKeep(s: State, t: State, c: nat, phase: Phase)
    requires Inv(s) && Moves(s, t, c, phase)
    requires !BeforeCall(s.callers[c].phase) ==> !BeforeCall(phase)
    requires Owns(phase) ==> Owns(s.callers[c].phase)
    requires CallerOk(t, c, t.callers[c])
    ensures Inv(t)
  {
    hide CallerOk, CallsOk, SweepsOk, CallersOk, RecordsOk, VerdictsFinal, Frame, NoCallLogged, OldSweeps;
    MovesFrame(s, t, c, phase);
    RecordsSame(s, t, c);
    VerdictsSame(s, t, c);
    Assemble(s, t, c);
  }

  lemma EndCallerOk(s: State, t: State, c: nat, phase: Phase)
    requires Moves(s, t, c, phase) && (phase.Raised? || phase.Crashed?)
    ensures CallerOk(t, c, t.callers[c])
  {
    hide IdOf, RecordOk, Admitted;
  }

  /** Moving to a phase that claims nothing. */
  lemma EndKeeps(s: State, t: State, c: nat, phase: Phase)
    requires Inv(s) && Moves(s, t, c, phase)
    requires phase.Raised? || phase.Crashed?
    ensures Inv(t)
  {
    hide CallsOk, SweepsOk, RecordsOk, VerdictsFinal, CallerOk, CallersOk;
    EndCallerOk(s, t, c, phase);
    MovesKeep(s, t, c, phase);
  }
}
