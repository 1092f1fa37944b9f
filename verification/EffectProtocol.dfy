/**
 Any number of callers of `execute` and `execute_bound` run against one journal,
 together with restart sweeps, and any of them may crash between any two disk
 operations. `transition` loads a record and later replaces it; these are two
 steps here, so that other steps may come between them.
 */
module EffectProtocol {
  import opened Values
  import opened JournalDisk

  datatype Reply = Reply(result: Option<Output>, record: Record, replayed: bool)

  /** Where a caller stands; the comments name what it will do next. */
  datatype Phase =
    | Arrived                                // check the request
    | Linking                                // link the permit of its run
    | Permitted                              // the permit was there already: read the identity
    | Ready                                  // build the identity in a private directory
    | Staged                                 // rename the directory into place
    | Waiting                                // another caller has the identity: poll its record
    | Won                                    // mark the identity RUNNING
    | Writing(next: Record, after: Phase)    // replace the record, having loaded it
    | Armed                                  // go through the gate
    | Finished(output: Output)               // record the outcome
    | Declined                               // the gate gave no result: record that
    | Fetching                               // read the record back
    | Handling                               // an exception is being handled
    | Returned(reply: Reply)
    | Raised
    | Crashed

  datatype Caller = Caller(request: Request, phase: Phase)

  /** The disk and outside world as an observer would log them. */
  datatype Event =
    | Linked(c: nat, run: string)
    | Published(c: nat, id: string)
    | Stored(c: nat, id: string, status: Status)
    | Called(c: nat, request: Request)
    | Swept(id: string)

  /**
   The winner maps and the log are history: no step looks at them.
   `sweeps` holds the records that running sweeps are about to write.
   */
  datatype State = State(
    disk: Disk,
    callers: map<nat, Caller>,
    sweeps: map<nat, Record>,
    permitWinner: map<string, nat>,
    identityWinner: map<string, nat>,
    log: seq<Event>)

  datatype Step =
    | Arrive(c: nat, request: Request)
    | Admit(c: nat)
    | Link(c: nat)
    | ReadPermitted(c: nat)
    | Stage(c: nat, now: int)
    | Publish(c: nat)
    | Poll(c: nat)
    | GiveUp(c: nat)
    | Load(c: nat, now: int)
    | Store(c: nat)
    | Call(c: nat, outcome: Option<Output>)  // None: the executor was called and raised
    | GateRaises(c: nat)                     // the gate raised before it called the executor
    | GateDeclines(c: nat)
    | Fetch(c: nat)
    | Crash(c: nat)
    | SweepLoad(k: nat, id: string, now: int)
    | SweepStore(k: nat)
    | SweepStop(k: nat)

  const NO_RESULT := "Remediation gate returned no execution result."

  function Init(): State {
    State(Disk(map[], map[], map[]), map[], map[], map[], map[], [])
  }

  function Goto(s: State, c: nat, phase: Phase): State
    requires c in s.callers
  {
    s.(callers := s.callers[c := s.callers[c].(phase := phase)])
  }

  function Log(s: State, e: Event): State {
    s.(log := s.log + [e])
  }

  function Unstage(s: State, c: nat): State {
    s.(disk := s.disk.(staging := s.disk.staging - {c}))
  }

  predicate Ended(p: Phase) {
    p.Returned? || p.Raised? || p.Crashed?
  }

  // ---------------------------------------------------------- single steps

  function DoLink(s: State, c: nat): State
    requires c in s.callers && s.callers[c].request.Bound?
  {
    var r := s.callers[c].request;
    var run, permit := RunKey(r.effect), PermitOf(r.effect, r.authorization);
    if run !in s.disk.permits then
      Log(Goto(s, c, Ready), Linked(c, run))
        .(disk := s.disk.(permits := s.disk.permits[run := permit]), permitWinner := s.permitWinner[run := c])
    else if s.disk.permits[run] != permit then Goto(s, c, Raised)
    else Goto(s, c, Permitted)
  }

  function DoReadPermitted(s: State, c: nat): State
    requires c in s.callers
  {
    var r := s.callers[c].request;
    var id := IdOf(r);
    if ValidateId(RawId(r)).None? || id !in s.disk.records then Goto(s, c, Raised)
    else if !Validates(s.disk.records[id], r) then Goto(s, c, Raised)
    else Goto(s, c, Returned(Reply(Rebuild(s.disk.records[id].execution), s.disk.records[id], true)))
  }

  function DoStage(s: State, c: nat, now: int): State
    requires c in s.callers
  {
    var r := s.callers[c].request;
    if !ClaimOk(r) then Goto(s, c, Raised)
    else Goto(s, c, Staged).(disk := s.disk.(staging := s.disk.staging[c := FreshRecord(r, now)]))
  }

  function DoPublish(s: State, c: nat): State
    requires c in s.callers && c in s.disk.staging
  {
    var r := s.callers[c].request;
    var id, record := IdOf(r), s.disk.staging[c];
    if NameTaken(s.disk, id) then Goto(s, c, Waiting)
    else
      Log(Goto(Unstage(s, c), c, if Validates(record, r) then Won else Raised), Published(c, id))
        .(disk := s.disk.(records := s.disk.records[id := record], staging := s.disk.staging - {c}),
          identityWinner := s.identityWinner[id := c])
  }

  function DoPoll(s: State, c: nat): State
    requires c in s.callers
  {
    var r := s.callers[c].request;
    var id := IdOf(r);
    if id !in s.disk.records || !Terminal(s.disk.records[id].status) then s
    else if !Validates(s.disk.records[id], r) then Goto(Unstage(s, c), c, Raised)
    else Goto(Unstage(s, c), c, Returned(Reply(Rebuild(s.disk.records[id].execution), s.disk.records[id], true)))
  }

  /** The transition a caller is about to ask for, and where each answer leads. */
  datatype Plan = Plan(status: Status, execution: Option<Execution>, reason: Option<string>)

  function PlanOf(q: Caller): Plan {
    match q.phase
    case Won => Plan(Running, None, None)
    case Finished(o) =>
      if q.request.Bound? && o.command != CommandOf(q.request) then Plan(Unknown, None, Some(ARGV_BROKEN))
      else Plan(if o.exitCode == 0 then Succeeded else Failed, Some(Keep(o)), None)
    case Declined => Plan(Unknown, None, Some(NO_RESULT))
    case _ => Plan(Unknown, None, Some(RAISED))
  }

  function AfterRecord(q: Caller, record: Record): Phase {
    match q.phase
    case Won => Armed
    case Finished(o) =>
      if q.request.Bound? && o.command != CommandOf(q.request) then Handling
      else Returned(Reply(Some(o), record, false))
    case Declined => Fetching
    case _ => Raised
  }

  function AfterRefusal(q: Caller): Phase {
    if q.phase.Won? || q.phase.Handling? then Raised else Handling
  }

  function DoLoad(s: State, c: nat, now: int): State
    requires c in s.callers
  {
    var q := s.callers[c];
    var id, plan := IdOf(q.request), PlanOf(q);
    if id !in s.disk.records then Goto(s, c, AfterRefusal(q))
    else
      match Transition(s.disk.records[id], plan.status, plan.execution, plan.reason, now)
      case Refused => Goto(s, c, AfterRefusal(q))
      case Kept(record) => Goto(s, c, AfterRecord(q, record))
      case Write(next) => Goto(s, c, Writing(next, AfterRecord(q, next)))
  }

  function DoStore(s: State, c: nat): State
    requires c in s.callers && s.callers[c].phase.Writing?
  {
    var p := s.callers[c].phase;
    var id := IdOf(s.callers[c].request);
    Log(Goto(s, c, p.after), Stored(c, id, p.next.status))
      .(disk := s.disk.(records := s.disk.records[id := p.next]))
  }

  function DoSweepLoad(s: State, k: nat, id: string, now: int): State
    requires id in s.disk.records
  {
    match Transition(s.disk.records[id], Unknown, None, Some(INTERRUPTED), now)
    case Write(next) => s.(sweeps := s.sweeps[k := next])
    case _ => s
  }

  function DoSweepStore(s: State, k: nat): State
    requires k in s.sweeps
  {
    var next := s.sweeps[k];
    Log(s, Swept(next.executionId))
      .(disk := s.disk.(records := s.disk.records[next.executionId := next]), sweeps := s.sweeps - {k})
  }

  // ------------------------------------------------------------------ runs

  predicate At(s: State, c: nat, allowed: Phase -> bool) {
    c in s.callers && allowed(s.callers[c].phase)
  }

  predicate Enabled(s: State, step: Step) {
    match step
    case Arrive(c, _) => c !in s.callers
    case Admit(c) => At(s, c, (p: Phase) => p.Arrived?)
    case Link(c) => At(s, c, (p: Phase) => p.Linking?) && s.callers[c].request.Bound?
    case ReadPermitted(c) => At(s, c, (p: Phase) => p.Permitted?)
    case Stage(c, _) => At(s, c, (p: Phase) => p.Ready?)
    case Publish(c) => At(s, c, (p: Phase) => p.Staged?) && c in s.disk.staging
    case Poll(c) => At(s, c, (p: Phase) => p.Waiting?)
    case GiveUp(c) => At(s, c, (p: Phase) => p.Waiting?)
    case Load(c, _) => At(s, c, (p: Phase) => p.Won? || p.Finished? || p.Declined? || p.Handling?)
    case Store(c) => At(s, c, (p: Phase) => p.Writing?)
    case Call(c, _) => At(s, c, (p: Phase) => p.Armed?) && s.callers[c].request.decision.allow
    case GateRaises(c) => At(s, c, (p: Phase) => p.Armed?)
    case GateDeclines(c) =>
      At(s, c, (p: Phase) => p.Armed?) && s.callers[c].request.Plain? && !s.callers[c].request.decision.allow
    case Fetch(c) => At(s, c, (p: Phase) => p.Fetching?) && IdOf(s.callers[c].request) in s.disk.records
    case Crash(c) => At(s, c, (p: Phase) => !Ended(p))
    case SweepLoad(k, id, _) => k !in s.sweeps && id in s.disk.records
    case SweepStore(k) => k in s.sweeps
    case SweepStop(k) => k in s.sweeps
  }

  function Do(s: State, step: Step): State
    requires Enabled(s, step)
  {
    match step
    case Arrive(c, r) => s.(callers := s.callers[c := Caller(r, Arrived)])
    case Admit(c) =>
      var r := s.callers[c].request;
      Goto(s, c, if !Admitted(r) then Raised else if r.Bound? then Linking else Ready)
    case Link(c) => DoLink(s, c)
    case ReadPermitted(c) => DoReadPermitted(s, c)
    case Stage(c, now) => DoStage(s, c, now)
    case Publish(c) => DoPublish(s, c)
    case Poll(c) => DoPoll(s, c)
    case GiveUp(c) => Goto(Unstage(s, c), c, Raised)
    case Load(c, now) => DoLoad(s, c, now)
    case Store(c) => DoStore(s, c)
    case Call(c, outcome) =>
      Log(Goto(s, c, if outcome.Some? then Finished(outcome.value) else Handling), Called(c, s.callers[c].request))
    case GateRaises(c) => Goto(s, c, Handling)
    case GateDeclines(c) => Goto(s, c, Declined)
    case Fetch(c) => Goto(s, c, Returned(Reply(None, s.disk.records[IdOf(s.callers[c].request)], false)))
    case Crash(c) => Goto(s, c, Crashed)
    case SweepLoad(k, id, now) => DoSweepLoad(s, k, id, now)
    case SweepStore(k) => DoSweepStore(s, k)
    case SweepStop(k) => s.(sweeps := s.sweeps - {k})
  }

  /** A run is a list of steps, each enabled where it is taken. */
  predicate Runs(s: State, steps: seq<Step>)
    decreases |steps|
  {
    steps == [] || (Enabled(s, steps[0]) && Runs(Do(s, steps[0]), steps[1..]))
  }

  function After(s: State, steps: seq<Step>): State
    requires Runs(s, steps)
    decreases |steps|
  {
    if steps == [] then s else After(Do(s, steps[0]), steps[1..])
  }
}
