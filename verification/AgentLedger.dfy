/**
 The durable identity of AI executions, with any number of callers of
 `ReplaySafeAgentExecutionOrchestrator.execute`, crashes, and loads and writes of a
 record as separate steps. A caller that finds an unfinished record writes UNKNOWN.
 */
module AgentLedger {
  import opened Values
  import opened AgentBoundary
  import SingleUse

  datatype State = Claimed | Running | Succeeded | Failed | Unknown

  /** A collision-free digest: the fingerprint of a request is that request's alone. */
  datatype Fingerprint = Fingerprint(of: AgentRequest)

  datatype Record = Record(
    requestId: string, state: State, fingerprint: Fingerprint, agentId: string, taskId: string, operation: string,
    createdAt: int, updatedAt: int, accepted: Option<bool>, status: Option<AgentStatus>,
    detail: Option<string>)

  const INCOMPLETE := "REPLAY_AFTER_INCOMPLETE_ATTEMPT"

  predicate Unfinished(r: Record) {
    r.state.Claimed? || r.state.Running?
  }

  function Initial(q: AgentRequest, now: int): Record {
    Record(q.requestId, Claimed, Fingerprint(q), q.agentId, q.taskId, q.operation, now, now, None, None, None)
  }

  /** `_assert_continuity` */
  predicate Continues(r: Record, q: AgentRequest) {
    && r.requestId == q.requestId
    && r.agentId == q.agentId
    && r.taskId == q.taskId
    && r.operation == q.operation
    && r.fingerprint == Fingerprint(q)
  }

  function FinalState(o: AgentOutcome): State {
    if o.error.Some? && o.error.value.AdapterException? then Unknown
    else if o.accepted && o.result.Some? && o.result.value.status.Succeeded? then State.Succeeded
    else State.Failed
  }

  function Final(r: Record, o: AgentOutcome, now: int): Record {
    r.(state := FinalState(o), updatedAt := now, accepted := Some(o.accepted),
       status := if o.result.Some? then Some(o.result.value.status) else None,
       detail := Some(if o.error.Some? then ErrorText(o.error.value) else o.verification.reason))
  }

  datatype Phase =
    | Arrived                              // make the directory
    | Made                                 // write the first record into it
    | Colliding                            // the directory was there: load the record
    | Owner                                // load, to mark the record RUNNING
    | Writing(next: Record, after: Phase)
    | Marked                               // go through the boundary
    | Done(outcome: AgentOutcome)          // load, to finalize
    | Returned(record: Record, replayed: bool)
    | Raised
    | Crashed

  datatype Caller = Caller(request: AgentRequest, phase: Phase)

  datatype Attempt = Attempt(c: nat, request: AgentRequest, outcome: AgentOutcome)

  /** A directory may hold no record yet. `winner` and `log` are history. */
  datatype Ledger = Ledger(
    dirs: map<string, Option<Record>>, callers: map<nat, Caller>, winner: map<string, nat>, log: seq<Attempt>)

  datatype Step =
    | Arrive(c: nat, request: AgentRequest)
    | MakeDirectory(c: nat)
    | WriteFirst(c: nat, now: int)
    | Collide(c: nat, now: int)
    | LoadToMark(c: nat, now: int)
    | Run(c: nat, conduct: Conduct)
    | LoadToFinalize(c: nat, now: int)
    | Store(c: nat)
    | Crash(c: nat)

  function Init(): Ledger {
    Ledger(map[], map[], map[], [])
  }

  function Goto(s: Ledger, c: nat, phase: Phase): Ledger
    requires c in s.callers
  {
    s.(callers := s.callers[c := s.callers[c].(phase := phase)])
  }

  function Key(s: Ledger, c: nat): string
    requires c in s.callers
  {
    s.callers[c].request.requestId
  }

  /** The record a caller reads; None where the source raises. */
  function Loaded(s: Ledger, c: nat): Option<Record>
    requires c in s.callers
  {
    if Key(s, c) in s.dirs && s.dirs[Key(s, c)].Some? && Continues(s.dirs[Key(s, c)].value, s.callers[c].request)
    then s.dirs[Key(s, c)] else None
  }

  predicate Enabled(s: Ledger, step: Step) {
    match step
    case Arrive(c, _) => c !in s.callers
    case MakeDirectory(c) => c in s.callers && s.callers[c].phase.Arrived?
    case WriteFirst(c, _) => c in s.callers && s.callers[c].phase.Made?
    case Collide(c, _) => c in s.callers && s.callers[c].phase.Colliding?
    case LoadToMark(c, _) => c in s.callers && s.callers[c].phase.Owner?
    case Run(c, _) => c in s.callers && s.callers[c].phase.Marked?
    case LoadToFinalize(c, _) => c in s.callers && s.callers[c].phase.Done?
    case Store(c) => c in s.callers && s.callers[c].phase.Writing?
    case Crash(c) => c in s.callers && !(s.callers[c].phase.Returned? || s.callers[c].phase.Raised? || s.callers[c].phase.Crashed?)
  }

  function DoCollide(s: Ledger, c: nat, now: int): Ledger
    requires c in s.callers
  {
    match Loaded(s, c)
    case None => Goto(s, c, Raised)
    case Some(r) =>
      var unknown := r.(state := Unknown, updatedAt := now, detail := Some(INCOMPLETE));
      Goto(s, c, if Unfinished(r) then Writing(unknown, Returned(unknown, true)) else Returned(r, true))
  }

  function DoFinalize(s: Ledger, c: nat, now: int): Ledger
    requires c in s.callers && s.callers[c].phase.Done?
  {
    match Loaded(s, c)
    case None => Goto(s, c, Raised)
    case Some(r) =>
      var final := Final(r, s.callers[c].phase.outcome, now);
      Goto(s, c, if r.state.Running? then Writing(final, Returned(final, false))
                 else if r.state.Unknown? then Returned(r, false) else Raised)
  }

  function Do(s: Ledger, step: Step): Ledger
    requires Enabled(s, step)
  {
    match step
    case Arrive(c, q) => s.(callers := s.callers[c := Caller(q, Arrived)])
    case MakeDirectory(c) =>
      if Key(s, c) in s.dirs then Goto(s, c, Colliding)
      else Goto(s, c, Made).(dirs := s.dirs[Key(s, c) := None], winner := s.winner[Key(s, c) := c])
    case WriteFirst(c, now) =>
      Goto(s, c, Owner).(dirs := s.dirs[Key(s, c) := Some(Initial(s.callers[c].request, now))])
    case Collide(c, now) => DoCollide(s, c, now)
    case LoadToMark(c, now) =>
      (match Loaded(s, c)
       case None => Goto(s, c, Raised)
       case Some(r) =>
         Goto(s, c, if r.state.Claimed? then Writing(r.(state := Running, updatedAt := now), Marked) else Raised))
    case Run(c, w) =>
      var o := Judge(s.callers[c].request, w);
      Goto(s, c, Done(o)).(log := if o.attempted then s.log + [Attempt(c, s.callers[c].request, o)] else s.log)
    case LoadToFinalize(c, now) => DoFinalize(s, c, now)
    case Store(c) =>
      Goto(s, c, s.callers[c].phase.after).(dirs := s.dirs[Key(s, c) := Some(s.callers[c].phase.next)])
    case Crash(c) => Goto(s, c, Crashed)
  }

  predicate Runs(s: Ledger, steps: seq<Step>)
    decreases |steps|
  {
    steps == [] || (Enabled(s, steps[0]) && Runs(Do(s, steps[0]), steps[1..]))
  }

  function After(s: Ledger, steps: seq<Step>): Ledger
    requires Runs(s, steps)
    decreases |steps|
  {
    if steps == [] then s else After(Do(s, steps[0]), steps[1..])
  }

  // -------------------------------------------------------------- invariant

  /** Phases of the caller that made the directory, after making it. */
  predicate Owns(p: Phase) {
    p.Made? || p.Owner? || p.Marked? || p.Done? || (p.Writing? && !Replays(p))
  }

  /** A write on behalf of a replay. */
  predicate Replays(p: Phase) {
    p.Writing? && p.after.Returned? && p.after.replayed
  }

  predicate BeforeRun(p: Phase) {
    p.Arrived? || p.Made? || p.Colliding? || p.Owner? || p.Marked? || Replays(p) || (p.Writing? && p.after.Marked?)
  }

  /** A record of the winner's request; success was accepted by the verifier for an agent that succeeded. */
  ghost predicate RecordOk(r: Record, q: AgentRequest, log: seq<Attempt>, w: nat) {
    && Continues(r, q)
    && (r.state.Succeeded? ==> SuccessLogged(log, w, q))
  }

  ghost predicate SuccessLogged(log: seq<Attempt>, w: nat, q: AgentRequest) {
    exists i :: 0 <= i < |log| && log[i].c == w && log[i].request == q && log[i].outcome.accepted
      && log[i].outcome.result.Some? && log[i].outcome.result.value.status.Succeeded?
      && log[i].outcome.verification.accepted && IdentityError(q, log[i].outcome.result.value).None?
  }

  ghost predicate DirsOk(s: Ledger) {
    && s.dirs.Keys == s.winner.Keys
    && forall key :: key in s.winner ==>
         && s.winner[key] in s.callers
         && Key(s, s.winner[key]) == key
         && (s.dirs[key].Some? ==> RecordOk(s.dirs[key].value, s.callers[s.winner[key]].request, s.log, s.winner[key]))
  }

  ghost predicate CallerOk(s: Ledger, c: nat, q: Caller) {
    var key, p := q.request.requestId, q.phase;
    && (Owns(p) ==> key in s.winner && s.winner[key] == c)
    && (p.Arrived? || p.Colliding? || Replays(p) ==> key !in s.winner || s.winner[key] != c)
    && (p.Writing? ==>
          && key in s.winner
          && key in s.dirs && s.dirs[key].Some?
          && s.winner[key] in s.callers
          && RecordOk(p.next, s.callers[s.winner[key]].request, s.log, s.winner[key])
          && (p.after.Marked? || p.after.Returned?)
          && (p.after.Marked? ==> p.next.state.Running?)
          && (p.after.Returned? ==> p.after.record == p.next && !Unfinished(p.next))
          && (Replays(p) ==> p.next.state.Unknown?))
    && (p.Made? ==> key in s.dirs && s.dirs[key].None?)
    && (p.Owner? || p.Marked? || p.Done? ==> key in s.dirs && s.dirs[key].Some?)
    && (p.Done? && p.outcome.accepted ==> SuccessLogged(s.log, c, q.request))
    && (p.Done? && p.outcome.accepted ==> p.outcome.result.Some? && p.outcome.result.value.status.Succeeded?)
  }

  ghost predicate LogOk(s: Ledger) {
    && (forall i :: 0 <= i < |s.log| ==>
          && s.log[i].c in s.callers
          && s.callers[s.log[i].c].request == s.log[i].request
          && !BeforeRun(s.callers[s.log[i].c].phase)
          && s.log[i].request.requestId in s.winner
          && s.winner[s.log[i].request.requestId] == s.log[i].c)
    && (forall i, j :: 0 <= i < j < |s.log| ==> s.log[i].c != s.log[j].c)
  }

  ghost predicate Inv(s: Ledger) {
    && DirsOk(s)
    && (forall c :: c in s.callers ==> CallerOk(s, c, s.callers[c]))
    && LogOk(s)
  }
}
