/**
 The durable identity of deliveries to the Commander, with any number of callers of
 `CommanderDeliveryOrchestrator.deliver`, crashes, and loads and writes of a record
 as separate steps. A caller that finds an unfinished record is rejected, so only
 the owner ever writes: here no interleaving can lose a verdict.
 */
module DeliveryLedger {
  import opened Values
  import SingleUse

  datatype State = Claimed | Running | Succeeded | Failed | Unknown

  predicate Terminal(s: State) {
    s.Succeeded? || s.Failed? || s.Unknown?
  }

  /** The effect a delivery id is bound to; the digest is of the projection. */
  datatype Delivery = Delivery(id: string, projection: string, destination: string, transport: string)

  datatype Record = Record(
    bound: Delivery, state: State, createdAt: int, updatedAt: int,
    receipt: Option<string>, detail: Option<string>, reason: Option<string>)

  /** What the transport does when called: it reports a terminal state, or raises. */
  datatype Sent = Reports(state: State, receipt: Option<string>, detail: Option<string>) | Raises(kind: string)

  datatype Phase =
    | Arrived                          // is the transport enabled?
    | Ready                            // build the record in a private directory and rename it into place
    | Losing                           // the name was taken: load the record
    | Won                              // load, to mark the record RUNNING
    | Writing(next: Record, after: Phase)
    | Marked                           // call the transport
    | Settling(sent: Sent)             // load, to record what came of it
    | Returned(record: Record, replayed: bool)
    | Disabled
    | Raised
    | Crashed

  datatype Caller = Caller(request: Delivery, enabled: bool, phase: Phase)

  datatype Attempt = Attempt(c: nat, request: Delivery, sent: Sent)

  datatype Ledger = Ledger(records: map<string, Record>, callers: map<nat, Caller>, winner: map<string, nat>, log: seq<Attempt>)

  datatype Step =
    | Arrive(c: nat, request: Delivery, enabled: bool)
    | Check(c: nat)
    | Publish(c: nat, now: int)
    | Lose(c: nat)
    | LoadToMark(c: nat, now: int)
    | Deliver(c: nat, sent: Sent)
    | LoadToSettle(c: nat, now: int)
    | Store(c: nat)
    | Crash(c: nat)

  function Init(): Ledger {
    Ledger(map[], map[], map[], [])
  }

  function Goto(s: Ledger, c: nat, phase: Phase): Ledger
    requires c in s.callers
  {
    s.(callers := s.callers[c := s.callers[c].(phase := phase)])
  }

  function Key(s: Ledger, c: nat): string
    requires c in s.callers
  {
    s.callers[c].request.id
  }

  /** `_assert_continuity`; the id is the directory's name. */
  predicate Continues(r: Record, q: Delivery) {
    r.bound.projection == q.projection && r.bound.destination == q.destination && r.bound.transport == q.transport
  }

  function Outcome(sent: Sent): State {
    if sent.Raises? then Unknown else sent.state
  }

  /** The reason recorded with UNKNOWN. */
  function ReasonOf(sent: Sent): Option<string> {
    match sent
    case Raises(kind) => Some("transport_exception:" + kind)
    case Reports(state, _, _) => if state.Unknown? then Some("transport_reported_unknown") else None
  }

  predicate Enabled(s: Ledger, step: Step) {
    match step
    case Arrive(c, _, _) => c !in s.callers
    case Check(c) => c in s.callers && s.callers[c].phase.Arrived?
    case Publish(c, _) => c in s.callers && s.callers[c].phase.Ready?
    case Lose(c) => c in s.callers && s.callers[c].phase.Losing? && Key(s, c) in s.records
    case LoadToMark(c, _) => c in s.callers && s.callers[c].phase.Won? && Key(s, c) in s.records
    case Deliver(c, sent) => c in s.callers && s.callers[c].phase.Marked? && (sent.Reports? ==> Terminal(sent.state))
    case LoadToSettle(c, _) => c in s.callers && s.callers[c].phase.Settling? && Key(s, c) in s.records
    case Store(c) => c in s.callers && s.callers[c].phase.Writing?
    case Crash(c) => c in s.callers && !(s.callers[c].phase.Returned? || s.callers[c].phase.Raised? || s.callers[c].phase.Disabled?)
  }

  function DoLose(s: Ledger, c: nat): Ledger
    requires c in s.callers && Key(s, c) in s.records
  {
    var r := s.records[Key(s, c)];
    Goto(s, c, if !Continues(r, s.callers[c].request) || !Terminal(r.state) then Raised else Returned(r, true))
  }

  function DoSettle(s: Ledger, c: nat, now: int): Ledger
    requires c in s.callers && s.callers[c].phase.Settling? && Key(s, c) in s.records
  {
    var r, sent := s.records[Key(s, c)], s.callers[c].phase.sent;
    var next := Record(r.bound, Outcome(sent), r.createdAt, now,
                       if sent.Reports? then sent.receipt else None, if sent.Reports? then sent.detail else None,
                       ReasonOf(sent));
    Goto(s, c,
      if Terminal(r.state) then (if r.state == Outcome(sent) then Returned(r, false) else Raised)
      else if r.state.Running? then Writing(next, Returned(next, false))
      else Raised)
  }

  function DoMark(s: Ledger, c: nat, now: int): Ledger
    requires c in s.callers && Key(s, c) in s.records
  {
    var r := s.records[Key(s, c)];
    Goto(s, c, if r.state.Claimed? then Writing(Record(r.bound, Running, r.createdAt, now, None, None, None), Marked) else Raised)
  }

  function Do(s: Ledger, step: Step): Ledger
    requires Enabled(s, step)
  {
    match step
    case Arrive(c, q, enabled) => s.(callers := s.callers[c := Caller(q, enabled, Arrived)])
    case Check(c) => Goto(s, c, if s.callers[c].enabled then Ready else Disabled)
    case Publish(c, now) =>
      if Key(s, c) in s.records then Goto(s, c, Losing)
      else
        Goto(s, c, Won)
          .(records := s.records[Key(s, c) := Record(s.callers[c].request, Claimed, now, now, None, None, None)],
            winner := s.winner[Key(s, c) := c])
    case Lose(c) => DoLose(s, c)
    case LoadToMark(c, now) => DoMark(s, c, now)
    case Deliver(c, sent) => Goto(s, c, Settling(sent)).(log := s.log + [Attempt(c, s.callers[c].request, sent)])
    case LoadToSettle(c, now) => DoSettle(s, c, now)
    case Store(c) => Goto(s, c, s.callers[c].phase.after).(records := s.records[Key(s, c) := s.callers[c].phase.next])
    case Crash(c) => Goto(s, c, Crashed)
  }

  predicate Runs(s: Ledger, steps: seq<Step>)
    decreases |steps|
  {
    steps == [] || (Enabled(s, steps[0]) && Runs(Do(s, steps[0]), steps[1..]))
  }

  function After(s: Ledger, steps: seq<Step>): Ledger
    requires Runs(s, steps)
    decreases |steps|
  {
    if steps == [] then s else After(Do(s, steps[0]), steps[1..])
  }

  // -------------------------------------------------------------- invariant

  predicate Owns(p: Phase) {
    p.Won? || p.Writing? || p.Marked? || p.Settling?
  }

  predicate BeforeSend(p: Phase) {
    p.Arrived? || p.Ready? || p.Losing? || p.Won? || p.Marked? || (p.Writing? && p.after.Marked?)
  }

  /** Where its owner stands, given what the record says. */
  ghost predicate InStep(r: Record, p: Phase) {
    && (p.Won? ==> r.state.Claimed?)
    && (p.Writing? && p.after.Marked? ==> r.state.Claimed?)
    && (p.Marked? || p.Settling? ==> r.state.Running?)
    && (p.Writing? && p.after.Returned? ==> r.state.Running?)
  }

  /** The record says what the transport did, down to its receipt, detail code and reason. */
  ghost predicate Tells(r: Record, sent: Sent) {
    match sent
    case Reports(state, receipt, detail) =>
      && r.state == state && r.receipt == receipt && r.detail == detail
      && r.reason == if state.Unknown? then Some("transport_reported_unknown") else None
    case Raises(kind) =>
      r.state.Unknown? && r.receipt.None? && r.detail.None? && r.reason == Some("transport_exception:" + kind)
  }

  ghost predicate ReportedAt(log: seq<Attempt>, i: int, w: nat, r: Record) {
    0 <= i < |log| && log[i].c == w && log[i].request == r.bound && Tells(r, log[i].sent)
  }

  /** The transport was called by w for exactly this delivery, and the record tells what came of it. */
  ghost predicate Reported(log: seq<Attempt>, w: nat, r: Record) {
    exists i :: ReportedAt(log, i, w, r)
  }

  ghost predicate Logged(log: seq<Attempt>, w: nat, q: Delivery, sent: Sent) {
    exists i :: 0 <= i < |log| && log[i] == Attempt(w, q, sent)
  }

  ghost predicate RecordsOk(s: Ledger) {
    && s.records.Keys == s.winner.Keys
    && forall key :: key in s.winner ==>
         && s.winner[key] in s.callers
         && s.callers[s.winner[key]].request.id == key
         && s.records[key].bound == s.callers[s.winner[key]].request
         && (Terminal(s.records[key].state) ==> Reported(s.log, s.winner[key], s.records[key]))
  }

  ghost predicate CallerOk(s: Ledger, c: nat, q: Caller) {
    var key, p := q.request.id, q.phase;
    && (Owns(p) ==> key in s.winner && s.winner[key] == c && key in s.records && InStep(s.records[key], p))
    && (p.Arrived? || p.Ready? || p.Losing? ==> key !in s.winner || s.winner[key] != c)
    && (p.Losing? ==> key in s.records)
    && (p.Writing? ==>
          && p.next.bound == q.request
          && (|| (p.after.Marked? && p.next.state.Running?)
              || (p.after == Returned(p.next, false) && Terminal(p.next.state) && Reported(s.log, c, p.next))))
    && (p.Settling? ==> Terminal(Outcome(p.sent)) && Logged(s.log, c, q.request, p.sent))
    && (p.Returned? ==> Terminal(p.record.state) && key in s.records && s.records[key] == p.record)
  }

  ghost predicate LogOk(s: Ledger) {
    && (forall i :: 0 <= i < |s.log| ==>
          && s.log[i].c in s.callers
          && s.callers[s.log[i].c].request == s.log[i].request
          && !BeforeSend(s.callers[s.log[i].c].phase)
          && s.log[i].request.id in s.winner
          && s.winner[s.log[i].request.id] == s.log[i].c)
    && (forall i, j :: 0 <= i < j < |s.log| ==> s.log[i].c != s.log[j].c)
  }

  ghost predicate Inv(s: Ledger) {
    && RecordsOk(s)
    && (forall c :: c in s.callers ==> CallerOk(s, c, s.callers[c]))
    && LogOk(s)
  }

  // ------------------------------------------------------------ preservation

  ghost predicate Frame(s: Ledger, t: Ledger, c: nat) {
    && (forall d :: d in s.callers ==> d in t.callers && t.callers[d].request == s.callers[d].request)
    && (forall d :: d in s.callers && d != c ==> t.callers[d] == s.callers[d])
    && (forall d :: d in t.callers && d != c ==> d in s.callers)
    && (forall key :: key in s.winner ==> key in t.winner && t.winner[key] == s.winner[key])
    && (forall key :: key in t.winner && key !in s.winner ==> t.winner[key] == c)
    && (forall key :: key in s.records ==> key in t.records)
    && (forall key :: key in s.records && t.records[key] != s.records[key] ==>
          key in s.winner && s.winner[key] == c && !Terminal(s.records[key].state))
    && s.log <= t.log
  }

  lemma ReportStays(log: seq<Attempt>, more: seq<Attempt>, w: nat, r: Record)
    requires log <= more && Reported(log, w, r)
    ensures Reported(more, w, r)
  {
    var i :| ReportedAt(log, i, w, r);
    assert ReportedAt(more, i, w, r);
  }

  lemma SendingStays(log: seq<Attempt>, more: seq<Attempt>, w: nat, q: Delivery, sent: Sent)
    requires log <= more && Logged(log, w, q, sent)
    ensures Logged(more, w, q, sent)
  {
    var i :| 0 <= i < |log| && log[i] == Attempt(w, q, sent);
    assert more[i] == log[i];
  }

  lemma CallerStays(s: Ledger, t: Ledger, c: nat, d: nat)
    requires Frame(s, t, c) && d != c && d in s.callers && CallerOk(s, d, s.callers[d])
    ensures CallerOk(t, d, t.callers[d])
  {
    hide Reported;
    var q := s.callers[d];
    if q.phase.Writing? && q.phase.after.Returned? {
      ReportStays(s.log, t.log, d, q.phase.next);
    }
    if q.phase.Settling? {
      SendingStays(s.log, t.log, d, q.request, q.phase.sent);
    }
  }

  lemma RestKept(s: Ledger, t: Ledger, c: nat)
    requires Inv(s) && Frame(s, t, c) && c in t.callers && CallerOk(t, c, t.callers[c])
    requires t.log == s.log
    requires c in s.callers && !BeforeSend(s.callers[c].phase) ==> !BeforeSend(t.callers[c].phase)
    ensures forall d :: d in t.callers ==> CallerOk(t, d, t.callers[d])
    ensures LogOk(t)
  {
    hide CallerOk, Reported;
    forall d | d in t.callers ensures CallerOk(t, d, t.callers[d]) {
      if d != c { CallerStays(s, t, c, d); }
    }
  }

  predicate WritesLedger(step: Step) {
    step.Publish? || step.Store? || step.Deliver?
  }

  lemma QuietLedger(s: Ledger, step: Step)
    requires Enabled(s, step) && !WritesLedger(step)
    ensures var t := Do(s, step);
            && t.records == s.records && t.winner == s.winner && t.log == s.log
            && step.c in t.callers
            && (step.c in s.callers ==> t.callers[step.c].request == s.callers[step.c].request)
            && (step.c in s.callers && !BeforeSend(s.callers[step.c].phase) ==> !BeforeSend(t.callers[step.c].phase))
            && t.callers == s.callers[step.c := t.callers[step.c]]
  {
    hide Continues, Outcome;
  }

  lemma QuietFrame(s: Ledger, step: Step)
    requires RecordsOk(s) && Enabled(s, step) && !WritesLedger(step)
    ensures Frame(s, Do(s, step), step.c) && RecordsOk(Do(s, step))
  {
    hide Reported, Do, Enabled;
    QuietLedger(s, step);
  }

  lemma QuietCaller(s: Ledger, step: Step)
    requires RecordsOk(s) && Enabled(s, step) && !WritesLedger(step)
    requires step.c in s.callers ==> CallerOk(s, step.c, s.callers[step.c])
    ensures CallerOk(Do(s, step), step.c, Do(s, step).callers[step.c])
  {
    hide Continues;
    if step.LoadToSettle? {
      SettleCaller(s, step.c, step.now);
    } else {
      hide Reported;
    }
  }

  lemma SettleCaller(s: Ledger, c: nat, now: int)
    requires RecordsOk(s) && Enabled(s, LoadToSettle(c, now)) && CallerOk(s, c, s.callers[c])
    ensures CallerOk(DoSettle(s, c, now), c, DoSettle(s, c, now).callers[c])
  {
    var key := Key(s, c);
    assert s.records[key].bound == s.callers[c].request;
    hide Reported;
    var q := s.callers[c];
    var i :| 0 <= i < |s.log| && s.log[i] == Attempt(c, q.request, q.phase.sent);
    var p := DoSettle(s, c, now).callers[c].phase;
    if p.Writing? {
      SettledIsReported(s, c, i, p.next);
    }
  }

  lemma SettledIsReported(s: Ledger, c: nat, i: nat, r: Record)
    requires i < |s.log| && s.log[i].c == c && s.log[i].request == r.bound && Tells(r, s.log[i].sent)
    ensures Reported(s.log, c, r)
  {
    assert ReportedAt(s.log, i, c, r);
  }

  lemma QuietKeeps(s: Ledger, step: Step)
    requires Inv(s) && Enabled(s, step) && !WritesLedger(step)
    ensures Inv(Do(s, step))
  {
    hide Do, RecordsOk, LogOk, CallerOk, Frame;
    QuietLedger(s, step);
    QuietFrame(s, step);
    QuietCaller(s, step);
    RestKept(s, Do(s, step), step.c);
  }

  lemma PublishFrame(s: Ledger, c: nat, now: int)
    requires RecordsOk(s) && Enabled(s, Publish(c, now))
    ensures Frame(s, Do(s, Publish(c, now)), c)
  {
    hide Reported;
  }

  lemma PublishOk(s: Ledger, c: nat, now: int)
    requires RecordsOk(s) && Enabled(s, Publish(c, now)) && CallerOk(s, c, s.callers[c])
    ensures CallerOk(Do(s, Publish(c, now)), c, Do(s, Publish(c, now)).callers[c])
    ensures RecordsOk(Do(s, Publish(c, now)))
  {
    hide Reported;
  }

  lemma PublishKeeps(s: Ledger, c: nat, now: int)
    requires Inv(s) && Enabled(s, Publish(c, now))
    ensures Inv(Do(s, Publish(c, now)))
  {
    hide CallerOk, RecordsOk, LogOk, Frame;
    PublishFrame(s, c, now);
    PublishOk(s, c, now);
    RestKept(s, Do(s, Publish(c, now)), c);
  }

  lemma StoreFrame(s: Ledger, c: nat)
    requires RecordsOk(s) && Enabled(s, Store(c)) && CallerOk(s, c, s.callers[c])
    ensures Frame(s, Do(s, Store(c)), c) && Do(s, Store(c)).log == s.log
    ensures !BeforeSend(s.callers[c].phase) ==> !BeforeSend(Do(s, Store(c)).callers[c].phase)
  {
    hide Reported;
  }

  lemma StoreCaller(s: Ledger, c: nat)
    requires RecordsOk(s) && Enabled(s, Store(c)) && CallerOk(s, c, s.callers[c])
    ensures c in Do(s, Store(c)).callers && CallerOk(Do(s, Store(c)), c, Do(s, Store(c)).callers[c])
  {
    hide Reported;
  }

  lemma StoreRecords(s: Ledger, c: nat)
    requires RecordsOk(s) && Enabled(s, Store(c)) && CallerOk(s, c, s.callers[c])
    ensures RecordsOk(Do(s, Store(c)))
  {
    hide Reported;
  }

  lemma StoreKeeps(s: Ledger, c: nat)
    requires Inv(s) && Enabled(s, Store(c))
    ensures Inv(Do(s, Store(c)))
  {
    hide CallerOk, RecordsOk, LogOk, Frame;
    StoreFrame(s, c);
    StoreCaller(s, c);
    StoreRecords(s, c);
    RestKept(s, Do(s, Store(c)), c);
  }

  lemma DeliverKeeps(s: Ledger, c: nat, sent: Sent)
    requires Inv(s) && Enabled(s, Deliver(c, sent))
    ensures Inv(Do(s, Deliver(c, sent)))
  {
    var t := Do(s, Deliver(c, sent));
    assert CallerOk(s, c, s.callers[c]);
    assert Frame(s, t, c);
    assert t.log[|s.log|] == Attempt(c, s.callers[c].request, sent);
    assert CallerOk(t, c, t.callers[c]);
    hide CallerOk;
    forall d | d in t.callers ensures CallerOk(t, d, t.callers[d]) {
      if d != c { CallerStays(s, t, c, d); }
    }
    DeliverRecords(s, t, c);
  }

  lemma DeliverRecords(s: Ledger, t: Ledger, c: nat)
    requires RecordsOk(s) && Frame(s, t, c) && t.records == s.records && t.winner == s.winner
    ensures RecordsOk(t)
  {
    hide Reported;
    forall key | key in t.winner && Terminal(t.records[key].state)
      ensures Reported(t.log, t.winner[key], t.records[key])
    {
      ReportStays(s.log, t.log, s.winner[key], s.records[key]);
    }
  }

  lemma StepKeeps(s: Ledger, step: Step)
    requires Inv(s) && Enabled(s, step)
    ensures Inv(Do(s, step))
  {
    hide Inv, Do, Enabled;
    match step
    case Publish(c, now) => PublishKeeps(s, c, now);
    case Store(c) => StoreKeeps(s, c);
    case Deliver(c, sent) => DeliverKeeps(s, c, sent);
    case _ => QuietKeeps(s, step);
  }

  // -------------------------------------------------------------- refinement

  function VerdictOf(state: State): (v: Option<SingleUse.Verdict>)
    ensures (v == Some(SingleUse.Success) <==> state.Succeeded?) && (v == Some(SingleUse.Failure) <==> state.Failed?)
    ensures v == Some(SingleUse.Unknown) <==> state.Unknown?
  {
    match state
    case Succeeded => Some(SingleUse.Success)
    case Failed => Some(SingleUse.Failure)
    case Unknown => Some(SingleUse.Unknown)
    case _ => None
  }

  function Performs(log: seq<Attempt>): (r: seq<SingleUse.Perform>)
    ensures |r| == |log| && forall i :: 0 <= i < |r| ==> r[i] == SingleUse.Perform(log[i].request.id, log[i].c)
  {
    seq(|log|, i requires 0 <= i < |log| => SingleUse.Perform(log[i].request.id, log[i].c))
  }

  function Abs(s: Ledger): SingleUse.Register {
    SingleUse.Register(
      map key | key in s.records && key in s.winner :: SingleUse.Cell(s.winner[key], VerdictOf(s.records[key].state)),
      Performs(s.log))
  }

  function ActionOf(s: Ledger, step: Step): SingleUse.Action
    requires Enabled(s, step)
  {
    match step
    case Publish(c, _) => if Key(s, c) in s.records then SingleUse.Stutter else SingleUse.Acquire(Key(s, c), c)
    case Deliver(c, _) => SingleUse.Act(Key(s, c), c)
    case Store(c) =>
      if VerdictOf(s.callers[c].phase.next.state).None? then SingleUse.Stutter
      else SingleUse.Settle(Key(s, c), c, VerdictOf(s.callers[c].phase.next.state).value)
    case _ => SingleUse.Stutter
  }

  lemma DeliverRefines(s: Ledger, c: nat, sent: Sent)
    requires Inv(s) && Enabled(s, Deliver(c, sent))
    ensures SingleUse.Can(Abs(s), ActionOf(s, Deliver(c, sent)))
    ensures SingleUse.Next(Abs(s), ActionOf(s, Deliver(c, sent))) == Abs(Do(s, Deliver(c, sent)))
  {
    hide Reported;
    assert CallerOk(s, c, s.callers[c]);
    assert !SingleUse.Performed(Abs(s), Key(s, c));
    assert SingleUse.Next(Abs(s), ActionOf(s, Deliver(c, sent))).performed == Abs(Do(s, Deliver(c, sent))).performed;
  }

  lemma StoreRefines(s: Ledger, c: nat)
    requires Inv(s) && Enabled(s, Store(c))
    ensures SingleUse.Can(Abs(s), ActionOf(s, Store(c)))
    ensures SingleUse.Next(Abs(s), ActionOf(s, Store(c))) == Abs(Do(s, Store(c)))
  {
    hide LogOk;
    assert CallerOk(s, c, s.callers[c]);
    if s.callers[c].phase.after.Returned? {
      var i :| ReportedAt(s.log, i, c, s.callers[c].phase.next);
      assert Abs(s).performed[i].key == Key(s, c);
    }
    hide CallerOk, Reported;
  }

  lemma OtherStepRefines(s: Ledger, step: Step)
    requires RecordsOk(s) && Enabled(s, step) && !step.Deliver? && !step.Store?
    ensures SingleUse.Can(Abs(s), ActionOf(s, step))
    ensures SingleUse.Next(Abs(s), ActionOf(s, step)) == Abs(Do(s, step))
  {
    hide Reported, Continues;
  }

  /** Every step is one action of the register, and none ever overwrites a verdict. */
  lemma StepRefines(s: Ledger, step: Step)
    requires Inv(s) && Enabled(s, step)
    ensures SingleUse.Can(Abs(s), ActionOf(s, step))
    ensures SingleUse.Next(Abs(s), ActionOf(s, step)) == Abs(Do(s, step))
    ensures !ActionOf(s, step).Overwrite?
  {
    hide CallerOk, LogOk, RecordsOk, Do, Abs;
    if step.Deliver? {
      DeliverRefines(s, step.c, step.sent);
    } else if step.Store? {
      StoreRefines(s, step.c);
    } else {
      OtherStepRefines(s, step);
    }
  }

  function Actions(s: Ledger, steps: seq<Step>): seq<SingleUse.Action>
    requires Runs(s, steps)
    decreases |steps|
  {
    if steps == [] then [] else [ActionOf(s, steps[0])] + Actions(Do(s, steps[0]), steps[1..])
  }

  lemma TerminalStays(s: Ledger, step: Step)
    requires Inv(s) && Enabled(s, step)
    ensures forall key :: key in s.records && Terminal(s.records[key].state) ==>
              key in Do(s, step).records && Do(s, step).records[key] == s.records[key]
  {
    hide LogOk, RecordsOk, Reported, Continues;
    if step.Store? {
      assert CallerOk(s, step.c, s.callers[step.c]);
    } else {
      hide CallerOk;
    }
  }

  lemma {:induction false} RunRefines(s: Ledger, steps: seq<Step>)
    requires Inv(s) && Runs(s, steps)
    ensures Inv(After(s, steps))
    ensures SingleUse.Follows(Abs(s), Actions(s, steps))
    ensures SingleUse.End(Abs(s), Actions(s, steps)) == Abs(After(s, steps))
    ensures forall a :: a in Actions(s, steps) ==> !a.Overwrite?
    ensures forall key :: key in s.records && Terminal(s.records[key].state) ==>
              key in After(s, steps).records && After(s, steps).records[key] == s.records[key]
    decreases |steps|
  {
    hide Inv, Enabled, Do, Abs, ActionOf;
    if steps != [] {
      StepRefines(s, steps[0]);
      StepKeeps(s, steps[0]);
      TerminalStays(s, steps[0]);
      RunRefines(Do(s, steps[0]), steps[1..]);
      assert Actions(s, steps)[1..] == Actions(Do(s, steps[0]), steps[1..]);
    }
  }

  lemma InitHolds()
    ensures Inv(Init()) && Abs(Init()) == SingleUse.EMPTY
  {}

  // ---------------------------------------------------------------- theorems

  /** In every run the transport is called at most once for a delivery id. */
  lemma AtMostOnce(steps: seq<Step>, i: nat, j: nat)
    requires Runs(Init(), steps) && i < j < |After(Init(), steps).log|
    ensures After(Init(), steps).log[i].request.id != After(Init(), steps).log[j].request.id
  {
    hide Inv, Enabled, Do, ActionOf;
    InitHolds();
    RunRefines(Init(), steps);
    SingleUse.RegisterIsSound(SingleUse.EMPTY, Actions(Init(), steps));
    var r := Abs(After(Init(), steps));
    assert r.performed[i].key != r.performed[j].key;
  }

  /** In every run, however it interleaves, a recorded verdict is recorded for good, and it is what the transport reported. */
  lemma VerdictsLast(before: seq<Step>, after: seq<Step>, key: string)
    requires Runs(Init(), before) && Runs(After(Init(), before), after)
    requires var s := After(Init(), before); key in s.records && Terminal(s.records[key].state)
    ensures var s, t := After(Init(), before), After(After(Init(), before), after);
            && key in t.records && t.records[key] == s.records[key]
            && s.records[key].bound.id == key && key in s.winner
            && exists i :: ReportedAt(s.log, i, s.winner[key], s.records[key])
  {
    hide Enabled, Do, ActionOf, LogOk, CallerOk;
    InitHolds();
    RunRefines(Init(), before);
    var s := After(Init(), before);
    RunRefines(s, after);
    assert Reported(s.log, s.winner[key], s.records[key]);
  }

  /**
   What a record says is what happened. SUCCEEDED and FAILED are the transport's own
   report on exactly this delivery, with its receipt; where the transport raised, the
   record can only say UNKNOWN, with what was raised and without a receipt.
   */
  lemma VerdictsAreReports(steps: seq<Step>, key: string, i: nat)
    requires Runs(Init(), steps)
    requires var s := After(Init(), steps);
             && key in s.records && Terminal(s.records[key].state) && i < |s.log| && s.log[i].request.id == key
    ensures var s := After(Init(), steps);
            var r, sent := s.records[key], s.log[i].sent;
            && key in s.winner && s.log[i].c == s.winner[key] && s.log[i].request == r.bound
            && (r.state.Succeeded? ==> sent.Reports? && sent.state.Succeeded? && sent.receipt == r.receipt && r.reason.None?)
            && (r.state.Failed? ==> sent.Reports? && sent.state.Failed? && sent.receipt == r.receipt && r.reason.None?)
            && (sent.Raises? ==> r.state.Unknown? && r.receipt.None? && r.reason == Some("transport_exception:" + sent.kind))
            && (sent.Reports? ==> r.state == sent.state && r.detail == sent.detail)
  {
    hide Enabled, Do, ActionOf, CallerOk;
    InitHolds();
    RunRefines(Init(), steps);
    var s := After(Init(), steps);
    assert Reported(s.log, s.winner[key], s.records[key]);
    var j :| ReportedAt(s.log, j, s.winner[key], s.records[key]);
    assert s.log[i].c == s.winner[key] == s.log[j].c;
    assert i == j;
  }

  /** Whoever is answered, by delivering or by replay, is answered with the record that stands. */
  lemma AnswersAgree(steps: seq<Step>, c: nat, d: nat)
    requires Runs(Init(), steps)
    requires var s := After(Init(), steps);
             && c in s.callers && d in s.callers
             && s.callers[c].phase.Returned? && s.callers[d].phase.Returned?
             && s.callers[c].request.id == s.callers[d].request.id
    ensures var s := After(Init(), steps); s.callers[c].phase.record == s.callers[d].phase.record
  {
    hide Enabled, Do, ActionOf, LogOk, RecordsOk, Reported;
    InitHolds();
    RunRefines(Init(), steps);
    var s := After(Init(), steps);
    assert CallerOk(s, c, s.callers[c]) && CallerOk(s, d, s.callers[d]);
  }
}
