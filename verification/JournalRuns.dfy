/**
 The journal as one process runs it and the interleaved protocol are one model: a
 caller that nobody interrupts, starting in any reachable state, does exactly what
 the attempt of module Journal says.
 */
module JournalRuns {
  import opened Values
  import opened JournalDisk
  import opened EffectProtocol
  import opened EffectInvariant
  import opened EffectSteps
  import opened EffectTheorems
  import opened EffectOverlap
  import J = Journal

  /** What a call leaves behind: the disk, whether the executor was called, and the reply unless it raised. */
  datatype Ending = Ending(permits: map<string, Permit>, records: map<string, Record>, called: bool, reply: Option<Reply>)

  function EndingOf(o: J.Outcome): Ending {
    Ending(o.permits, o.root, o.called,
      match o.answer
      case Ok(a) => Some(Reply(a.result, a.record, a.replayed))
      case Err(_) => None)
  }

  predicate HasCalled(s: State, c: nat, q: Request) {
    Called(c, q) in s.log
  }

  /** The same, as it shows in a state in which the caller has ended. */
  function Seen(s: State, c: nat): Ending
    requires c in s.callers
  {
    var q := s.callers[c];
    Ending(s.disk.permits, s.disk.records, HasCalled(s, c, q.request), if q.phase.Returned? then Some(q.phase.reply) else None)
  }

  // ---------------------------------------------------------- undisturbed steps

  predicate FinishedRecord(s: State, q: Request) {
    IdOf(q) in s.disk.records && Terminal(s.disk.records[IdOf(q)].status)
  }

  /** What a caller does next; it gives up waiting only where nobody has finished. */
  function NextStep(s: State, c: nat, now: int, outcome: Option<Output>): Step
    requires c in s.callers && !Ended(s.callers[c].phase)
  {
    match s.callers[c].phase
    case Arrived => Admit(c)
    case Linking => Link(c)
    case Permitted => ReadPermitted(c)
    case Ready => Stage(c, now)
    case Staged => Publish(c)
    case Waiting => if FinishedRecord(s, s.callers[c].request) then Poll(c) else GiveUp(c)
    case Writing(_, _) => Store(c)
    case Armed => Call(c, outcome)
    case Fetching => Fetch(c)
    case _ => Load(c, now)
  }

  /** One more poll may come at any time. */
  predicate Own(s: State, c: nat, step: Step, now: int, outcome: Option<Output>) {
    && c in s.callers && !Ended(s.callers[c].phase)
    && (step == NextStep(s, c, now, outcome) || (step == Poll(c) && s.callers[c].phase.Waiting?))
  }

  predicate Undisturbed(s: State, c: nat, steps: seq<Step>, now: int, outcome: Option<Output>)
    requires Runs(s, steps)
    decreases |steps|
  {
    steps == [] || (Own(s, c, steps[0], now, outcome) && Undisturbed(Do(s, steps[0]), c, steps[1..], now, outcome))
  }

  // ------------------------------------------------------------- the forecast

  function Begun(q: Request, now: int): Record {
    Updated(FreshRecord(q, now), Running, None, None, now)
  }

  /** What the call will have left behind in the end, as it can be told from where the caller stands. */
  function Forecast(s: State, c: nat, now: int, outcome: Option<Output>): Ending
    requires c in s.callers
  {
    var q, d := s.callers[c].request, s.disk;
    match s.callers[c].phase
    case Arrived => EndingOf(J.Attempt(d.permits, d.records, q, now, outcome))
    case Linking => EndingOf(J.Attempt(d.permits, d.records, q, now, outcome))
    case Permitted => EndingOf(J.Outcome(d.permits, d.records, false, J.FromPermit(d.records, q)))
    case Ready => EndingOf(J.FromClaim(d.permits, d.records, q, now, outcome))
    case Staged => EndingOf(J.FromClaim(d.permits, d.records, q, now, outcome))
    case Waiting => EndingOf(J.FromClaim(d.permits, d.records, q, now, outcome))
    case Returned(_) => Seen(s, c)
    case Raised => Seen(s, c)
    case Crashed => Seen(s, c)
    case _ => EndingOf(J.Owned(d.permits, d.records, q, now, outcome))
  }

  predicate OnDisk(s: State, q: Request, record: Record) {
    IdOf(q) in s.disk.records && s.disk.records[IdOf(q)] == record
  }

  predicate ArgvBroken(q: Request, outcome: Option<Output>) {
    outcome.Some? && q.Bound? && outcome.value.command != CommandOf(q)
  }

  predicate PlacedWriting(s: State, c: nat, q: Request, next: Record, after: Phase, now: int, outcome: Option<Output>) {
    if after.Armed? then OnDisk(s, q, FreshRecord(q, now)) && next == Begun(q, now) && !HasCalled(s, c, q)
    else
      && OnDisk(s, q, Begun(q, now)) && next == J.Settled(q, now, outcome) && HasCalled(s, c, q)
      && after == (if outcome.None? then Raised
                   else if ArgvBroken(q, outcome) then Handling
                   else Returned(Reply(outcome, next, false)))
  }

  /** Where an undisturbed caller can stand, and what it has done by then. */
  predicate Placed(s: State, c: nat, now: int, outcome: Option<Output>) {
    && c in s.callers
    && var q := s.callers[c].request;
       match s.callers[c].phase
       case Arrived => !HasCalled(s, c, q)
       case Linking => !HasCalled(s, c, q) && Admitted(q) && q.Bound?
       case Permitted => !HasCalled(s, c, q) && q.Bound?
       case Ready => !HasCalled(s, c, q) && Admitted(q)
       case Staged =>
         !HasCalled(s, c, q) && Admitted(q) && ClaimOk(q) && c in s.disk.staging && s.disk.staging[c] == FreshRecord(q, now)
       case Waiting => !HasCalled(s, c, q) && ClaimOk(q) && NameTaken(s.disk, IdOf(q))
       case Won => !HasCalled(s, c, q) && Admitted(q) && OnDisk(s, q, FreshRecord(q, now))
       case Writing(next, after) => (after.Armed? ==> Admitted(q)) && PlacedWriting(s, c, q, next, after, now, outcome)
       case Armed => !HasCalled(s, c, q) && Admitted(q) && OnDisk(s, q, Begun(q, now))
       case Finished(o) => HasCalled(s, c, q) && OnDisk(s, q, Begun(q, now)) && outcome == Some(o)
       case Handling =>
         && HasCalled(s, c, q)
         && (outcome.None? || ArgvBroken(q, outcome))
         && OnDisk(s, q, if outcome.None? then Begun(q, now) else J.Settled(q, now, outcome))
       case Declined => false
       case Fetching => false
       case _ => true
  }

  /** How far from its end a caller is at most. */
  function Left(p: Phase): nat {
    match p
    case Arrived => 12
    case Linking => 11
    case Ready => 10
    case Staged => 9
    case Won => 8
    case Armed => 6
    case Finished(_) => 4
    case Declined => 4
    case Handling => 2
    case Writing(_, after) => Left(after) + 1
    case Permitted => 1
    case Waiting => 1
    case Fetching => 1
    case _ => 0
  }

  /** What every step of an undisturbed caller keeps. */
  predicate Onward(s: State, t: State, c: nat, now: int, outcome: Option<Output>) {
    && c in s.callers && Placed(t, c, now, outcome) && t.callers[c].request == s.callers[c].request
    && Forecast(t, c, now, outcome) == Forecast(s, c, now, outcome)
    && Left(t.callers[c].phase) < Left(s.callers[c].phase)
  }

  // -------------------------------------------------------- one phase at a time

  lemma FromArrived(s: State, c: nat, now: int, outcome: Option<Output>)
    requires Placed(s, c, now, outcome) && s.callers[c].phase.Arrived?
    ensures Enabled(s, Admit(c)) && Onward(s, Do(s, Admit(c)), c, now, outcome)
  {
    hide IdOf, RunKey, PermitOf, ClaimOk, Admitted, J.FromPermit, J.FromClaim;
  }

  lemma FromLinking(s: State, c: nat, now: int, outcome: Option<Output>)
    requires Placed(s, c, now, outcome) && s.callers[c].phase.Linking?
    ensures Enabled(s, Link(c)) && Onward(s, Do(s, Link(c)), c, now, outcome)
  {
    hide IdOf, RunKey, PermitOf, ClaimOk, Admitted, J.FromPermit, J.FromClaim;
  }

  lemma FromPermitted(s: State, c: nat, now: int, outcome: Option<Output>)
    requires Placed(s, c, now, outcome) && s.callers[c].phase.Permitted?
    ensures Enabled(s, ReadPermitted(c)) && Onward(s, Do(s, ReadPermitted(c)), c, now, outcome)
  {
    hide IdOf, RawId, ValidateId, Validates, Rebuild, Onward;
    assert c in s.callers && !HasCalled(s, c, s.callers[c].request);
    hide Placed;
    EndsHere(s, Do(s, ReadPermitted(c)), c, now, outcome);
  }

  lemma FromReady(s: State, c: nat, now: int, outcome: Option<Output>)
    requires Placed(s, c, now, outcome) && s.callers[c].phase.Ready?
    ensures Enabled(s, Stage(c, now)) && Onward(s, Do(s, Stage(c, now)), c, now, outcome)
  {
    hide IdOf, ClaimOk, Admitted, Validates, FreshRecord, NameTaken, J.Owned, J.ReplayOf;
  }

  lemma FromStaged(s: State, c: nat, now: int, outcome: Option<Output>)
    requires Placed(s, c, now, outcome) && s.callers[c].phase.Staged?
    ensures Enabled(s, Publish(c)) && Onward(s, Do(s, Publish(c)), c, now, outcome)
  {
    var q := s.callers[c].request;
    hide Placed, Onward, Enabled, Do, FreshRecord, ClaimOk, IdOf, NameTaken, Validates;
    if NameTaken(s.disk, IdOf(q)) {
      StagedLoses(s, c, now, outcome);
    } else if Validates(FreshRecord(q, now), q) {
      StagedWins(s, c, now, outcome);
    } else {
      StagedMismatches(s, c, now, outcome);
    }
  }

  lemma NamesAgree(d: Disk, id: string)
    ensures NameTaken(d, id) == NameTaken(Disk(d.permits, d.records, map[]), id)
  {}

  lemma StagedLoses(s: State, c: nat, now: int, outcome: Option<Output>)
    requires Placed(s, c, now, outcome) && s.callers[c].phase.Staged? && NameTaken(s.disk, IdOf(s.callers[c].request))
    ensures Enabled(s, Publish(c)) && Onward(s, Do(s, Publish(c)), c, now, outcome)
  {
    hide IdOf, ClaimOk, Admitted, Validates, FreshRecord, J.FromClaim, NameTaken;
  }

  lemma StagedMismatches(s: State, c: nat, now: int, outcome: Option<Output>)
    requires Placed(s, c, now, outcome) && s.callers[c].phase.Staged?
    requires !NameTaken(s.disk, IdOf(s.callers[c].request))
    requires !Validates(FreshRecord(s.callers[c].request, now), s.callers[c].request)
    ensures Enabled(s, Publish(c)) && Onward(s, Do(s, Publish(c)), c, now, outcome)
  {
    var q := s.callers[c].request;
    hide IdOf, ClaimOk, Admitted, Validates, FreshRecord, NameTaken, Onward, J.FromClaim;
    assert c in s.callers && !HasCalled(s, c, q) && c in s.disk.staging && s.disk.staging[c] == FreshRecord(q, now) && ClaimOk(q);
    hide Placed;
    FreeClaim(s.disk, q, now, outcome);
    EndsHere(s, Do(s, Publish(c)), c, now, outcome);
  }

  lemma StagedWins(s: State, c: nat, now: int, outcome: Option<Output>)
    requires Placed(s, c, now, outcome) && s.callers[c].phase.Staged?
    requires !NameTaken(s.disk, IdOf(s.callers[c].request))
    requires Validates(FreshRecord(s.callers[c].request, now), s.callers[c].request)
    ensures Enabled(s, Publish(c)) && Onward(s, Do(s, Publish(c)), c, now, outcome)
  {
    var q := s.callers[c].request;
    hide IdOf, ClaimOk, Admitted, Validates, FreshRecord, J.Settled, NameTaken, J.FromClaim;
    FreeClaim(s.disk, q, now, outcome);
    assert s.disk.records[IdOf(q) := FreshRecord(q, now)][IdOf(q) := J.Settled(q, now, outcome)]
        == s.disk.records[IdOf(q) := J.Settled(q, now, outcome)];
  }

  lemma FreeClaim(d: Disk, q: Request, now: int, outcome: Option<Output>)
    requires ClaimOk(q) && !NameTaken(d, IdOf(q))
    ensures J.FromClaim(d.permits, d.records, q, now, outcome)
         == if Validates(FreshRecord(q, now), q) then J.Owned(d.permits, d.records, q, now, outcome)
            else J.Outcome(d.permits, d.records[IdOf(q) := FreshRecord(q, now)], false, Err(J.Mismatch))
  {
    NamesAgree(d, IdOf(q));
    hide IdOf, ClaimOk, NameTaken, J.ReplayOf, J.Owned, Validates, FreshRecord;
  }

  lemma FromWaiting(s: State, c: nat, now: int, outcome: Option<Output>)
    requires Placed(s, c, now, outcome) && s.callers[c].phase.Waiting?
    ensures var step := NextStep(s, c, now, outcome);
            Enabled(s, step) && Onward(s, Do(s, step), c, now, outcome)
  {
    var q := s.callers[c].request;
    hide Placed, Onward, Do, Enabled, IdOf;
    if FinishedRecord(s, q) {
      WaitingIsAnswered(s, c, now, outcome);
    } else {
      WaitingGivesUp(s, c, now, outcome);
    }
  }

  lemma WaitingForecast(s: State, c: nat, now: int, outcome: Option<Output>)
    requires Placed(s, c, now, outcome) && s.callers[c].phase.Waiting?
    ensures !HasCalled(s, c, s.callers[c].request)
    ensures var q := s.callers[c].request;
            Forecast(s, c, now, outcome) == Ending(s.disk.permits, s.disk.records, false,
              if FinishedRecord(s, q) && Validates(s.disk.records[IdOf(q)], q) then
                Some(Reply(Rebuild(s.disk.records[IdOf(q)].execution), s.disk.records[IdOf(q)], true))
              else None)
  {
    var q := s.callers[c].request;
    NamesAgree(s.disk, IdOf(q));
    hide IdOf, Validates, Rebuild, NameTaken, ClaimOk, J.FromClaim;
    TakenClaim(s.disk, q, now, outcome);
  }

  lemma WaitingIsAnswered(s: State, c: nat, now: int, outcome: Option<Output>)
    requires Placed(s, c, now, outcome) && s.callers[c].phase.Waiting? && FinishedRecord(s, s.callers[c].request)
    ensures Enabled(s, Poll(c)) && Onward(s, Do(s, Poll(c)), c, now, outcome)
  {
    hide IdOf, Validates, Rebuild, Onward;
    PlacedIsThere(s, c, now, outcome);
    WaitingForecast(s, c, now, outcome);
    hide Placed, Forecast;
    EndsHere(s, Do(s, Poll(c)), c, now, outcome);
  }

  lemma WaitingGivesUp(s: State, c: nat, now: int, outcome: Option<Output>)
    requires Placed(s, c, now, outcome) && s.callers[c].phase.Waiting? && !FinishedRecord(s, s.callers[c].request)
    ensures Enabled(s, GiveUp(c)) && Onward(s, Do(s, GiveUp(c)), c, now, outcome)
  {
    hide IdOf, Validates, Rebuild, Onward;
    PlacedIsThere(s, c, now, outcome);
    WaitingForecast(s, c, now, outcome);
    hide Placed, Forecast;
    EndsHere(s, Do(s, GiveUp(c)), c, now, outcome);
  }

  /** A step that ends the call has come true if it shows the forecast. */
  lemma EndsHere(s: State, t: State, c: nat, now: int, outcome: Option<Output>)
    requires c in s.callers && c in t.callers && t.callers[c].request == s.callers[c].request
    requires Ended(t.callers[c].phase) && Left(s.callers[c].phase) > 0
    requires Seen(t, c) == Forecast(s, c, now, outcome)
    ensures Onward(s, t, c, now, outcome)
  {
    hide Placed, Forecast, Seen;
    EndedIsSeen(t, c, now, outcome);
    EndedIsPlaced(t, c, now, outcome);
  }

  lemma EndedIsSeen(s: State, c: nat, now: int, outcome: Option<Output>)
    requires c in s.callers && Ended(s.callers[c].phase)
    ensures Forecast(s, c, now, outcome) == Seen(s, c) && Left(s.callers[c].phase) == 0
  {
    hide Seen, EndingOf;
  }

  lemma EndedIsPlaced(s: State, c: nat, now: int, outcome: Option<Output>)
    requires c in s.callers && Ended(s.callers[c].phase)
    ensures Placed(s, c, now, outcome)
  {
    hide HasCalled, PlacedWriting, Admitted, ClaimOk, OnDisk, NameTaken, ArgvBroken;
  }

  lemma TakenClaim(d: Disk, q: Request, now: int, outcome: Option<Output>)
    requires ClaimOk(q) && NameTaken(Disk(d.permits, d.records, map[]), IdOf(q))
    ensures J.FromClaim(d.permits, d.records, q, now, outcome)
         == J.Outcome(d.permits, d.records, false,
              if IdOf(q) in d.records && Terminal(d.records[IdOf(q)].status) then J.ReplayOf(d.records[IdOf(q)], q)
              else Err(J.TimedOut))
  {
    hide IdOf, ClaimOk, NameTaken, J.ReplayOf, J.Owned, Validates, FreshRecord;
  }

  lemma FromWon(s: State, c: nat, now: int, outcome: Option<Output>)
    requires Placed(s, c, now, outcome) && s.callers[c].phase.Won?
    ensures Enabled(s, Load(c, now)) && Onward(s, Do(s, Load(c, now)), c, now, outcome)
  {
    hide IdOf, CommandOf, IncidentOf, ComponentOf, ActionOf, Admitted, J.Settled;
    assert Left(Writing(Begun(s.callers[c].request, now), Armed)) == 7;
  }

  lemma FromArmed(s: State, c: nat, now: int, outcome: Option<Output>)
    requires Placed(s, c, now, outcome) && s.callers[c].phase.Armed?
    ensures Enabled(s, Call(c, outcome)) && Onward(s, Do(s, Call(c, outcome)), c, now, outcome)
  {
    hide IdOf, CommandOf, J.Settled, Begun, Matches, RunKey;
  }

  lemma FromFinished(s: State, c: nat, now: int, outcome: Option<Output>)
    requires Placed(s, c, now, outcome) && s.callers[c].phase.Finished?
    ensures Enabled(s, Load(c, now)) && Onward(s, Do(s, Load(c, now)), c, now, outcome)
  {
    hide IdOf, CommandOf, IncidentOf, ComponentOf, ActionOf, Keep;
    var next := J.Settled(s.callers[c].request, now, outcome);
    assert Left(Writing(next, Handling)) == 3;
    assert Left(Writing(next, Returned(Reply(outcome, next, false)))) == 1;
  }

  lemma FromHandling(s: State, c: nat, now: int, outcome: Option<Output>)
    requires Placed(s, c, now, outcome) && s.callers[c].phase.Handling?
    ensures Enabled(s, Load(c, now)) && Onward(s, Do(s, Load(c, now)), c, now, outcome)
  {
    hide IdOf, CommandOf, IncidentOf, ComponentOf, ActionOf, Keep;
    assert Left(Writing(J.Settled(s.callers[c].request, now, outcome), Raised)) == 1;
  }

  lemma FromWriting(s: State, c: nat, now: int, outcome: Option<Output>)
    requires Placed(s, c, now, outcome) && s.callers[c].phase.Writing?
    ensures Enabled(s, Store(c)) && Onward(s, Do(s, Store(c)), c, now, outcome)
  {
    hide Do, Enabled, Onward, PlacedWriting, HasCalled;
    if s.callers[c].phase.after.Armed? {
      WritingRunning(s, c, now, outcome);
    } else {
      WritingSettled(s, c, now, outcome);
    }
  }

  lemma WritingRunning(s: State, c: nat, now: int, outcome: Option<Output>)
    requires Placed(s, c, now, outcome) && s.callers[c].phase.Writing? && s.callers[c].phase.after.Armed?
    ensures Enabled(s, Store(c)) && Onward(s, Do(s, Store(c)), c, now, outcome)
  {
    hide IdOf, Admitted, J.Settled, Begun, FreshRecord;
  }

  lemma WritingSettled(s: State, c: nat, now: int, outcome: Option<Output>)
    requires Placed(s, c, now, outcome) && s.callers[c].phase.Writing? && !s.callers[c].phase.after.Armed?
    ensures Enabled(s, Store(c)) && Onward(s, Do(s, Store(c)), c, now, outcome)
  {
    hide IdOf, CommandOf, Admitted, Begun, FreshRecord, Keep;
  }

  lemma NextStepKeeps(s: State, c: nat, now: int, outcome: Option<Output>)
    requires Placed(s, c, now, outcome) && !Ended(s.callers[c].phase)
    ensures var step := NextStep(s, c, now, outcome);
            Enabled(s, step) && Onward(s, Do(s, step), c, now, outcome)
  {
    hide Do, Enabled, Onward, Forecast, HasCalled, PlacedWriting, FinishedRecord, Admitted, ClaimOk, OnDisk, NameTaken, ArgvBroken;
    match s.callers[c].phase
    case Arrived => FromArrived(s, c, now, outcome);
    case Linking => FromLinking(s, c, now, outcome);
    case Permitted => FromPermitted(s, c, now, outcome);
    case Ready => FromReady(s, c, now, outcome);
    case Staged => FromStaged(s, c, now, outcome);
    case Waiting => FromWaiting(s, c, now, outcome);
    case Won => FromWon(s, c, now, outcome);
    case Writing(_, _) => FromWriting(s, c, now, outcome);
    case Armed => FromArmed(s, c, now, outcome);
    case Finished(_) => FromFinished(s, c, now, outcome);
    case _ => FromHandling(s, c, now, outcome);
  }

  /** A poll that finds nothing finished changes nothing. */
  lemma IdlePoll(s: State, c: nat)
    requires c in s.callers && s.callers[c].phase.Waiting? && !FinishedRecord(s, s.callers[c].request)
    ensures Enabled(s, Poll(c)) && Do(s, Poll(c)) == s
  {
    hide IdOf;
  }

  // -------------------------------------------------------------- whole calls

  lemma {:induction false} ForecastComesTrue(s: State, c: nat, steps: seq<Step>, now: int, outcome: Option<Output>)
    requires Placed(s, c, now, outcome) && Runs(s, steps) && Undisturbed(s, c, steps, now, outcome)
    ensures var t := After(s, steps);
            c in t.callers && (Ended(t.callers[c].phase) ==> Seen(t, c) == Forecast(s, c, now, outcome))
    decreases |steps|
  {
    hide Do, Enabled, Placed, FinishedRecord, Seen, EndingOf;
    if steps == [] {
      PlacedIsThere(s, c, now, outcome);
    } else {
      var t := Do(s, steps[0]);
      if steps[0] == NextStep(s, c, now, outcome) {
        NextStepKeeps(s, c, now, outcome);
      } else {
        IdlePoll(s, c);
      }
      hide Forecast;
      ForecastComesTrue(t, c, steps[1..], now, outcome);
    }
  }

  lemma PlacedIsThere(s: State, c: nat, now: int, outcome: Option<Output>)
    requires Placed(s, c, now, outcome)
    ensures c in s.callers
  {
    hide HasCalled, PlacedWriting, Admitted, ClaimOk, OnDisk, NameTaken, ArgvBroken, RunKey;
  }

  lemma NewcomerIsPlaced(s: State, c: nat, q: Request, now: int, outcome: Option<Output>)
    requires Inv(s) && c !in s.callers
    ensures Enabled(s, Arrive(c, q)) && Placed(Do(s, Arrive(c, q)), c, now, outcome)
    ensures Forecast(Do(s, Arrive(c, q)), c, now, outcome) == EndingOf(J.Attempt(s.disk.permits, s.disk.records, q, now, outcome))
  {
    hide RecordsOk, SweepsOk, CallersOk, VerdictsFinal, J.Attempt, IdOf, EndingOf;
    forall i: nat | i < |s.log| ensures s.log[i] != Called(c, q) {
      assert CallOk(s, i);
    }
  }

  /**
   In any reachable state, whatever other callers and sweeps have begun: a call that
   ends without anybody else taking a step in between leaves exactly what the attempt
   of one process leaves, on disk, in the outside world and in its answer.
   */
  lemma AloneIsTheAttempt(before: seq<Step>, c: nat, q: Request, steps: seq<Step>, now: int, outcome: Option<Output>)
    requires Runs(Init(), before) && c !in After(Init(), before).callers
    requires var t := Do(After(Init(), before), Arrive(c, q)); Runs(t, steps) && Undisturbed(t, c, steps, now, outcome)
    ensures var s := After(Init(), before);
            var t := After(Do(s, Arrive(c, q)), steps);
            c in t.callers && (Ended(t.callers[c].phase) ==>
              Seen(t, c) == EndingOf(J.Attempt(s.disk.permits, s.disk.records, q, now, outcome)))
  {
    hide Inv, Do, Enabled, Placed, Forecast, Seen, EndingOf, J.Attempt;
    InitHolds();
    RunsKeep(Init(), before);
    var s := After(Init(), before);
    NewcomerIsPlaced(s, c, q, now, outcome);
    ForecastComesTrue(Do(s, Arrive(c, q)), c, steps, now, outcome);
  }

  lemma {:induction false} PlacedEnds(s: State, c: nat, now: int, outcome: Option<Output>) returns (steps: seq<Step>)
    requires Placed(s, c, now, outcome)
    ensures Runs(s, steps) && Undisturbed(s, c, steps, now, outcome)
    ensures c in After(s, steps).callers && Ended(After(s, steps).callers[c].phase)
    decreases Left(s.callers[c].phase)
  {
    hide Do, Enabled, Forecast, FinishedRecord;
    if Ended(s.callers[c].phase) {
      steps := [];
    } else {
      var step := NextStep(s, c, now, outcome);
      NextStepKeeps(s, c, now, outcome);
      hide Placed;
      var rest := PlacedEnds(Do(s, step), c, now, outcome);
      steps := [step] + rest;
      Prepend(s, step, rest);
      assert steps[1..] == rest;
    }
  }

  /** And every such call does end, so the attempt is always one of the protocol's runs. */
  lemma AloneEnds(before: seq<Step>, c: nat, q: Request, now: int, outcome: Option<Output>) returns (steps: seq<Step>)
    requires Runs(Init(), before) && c !in After(Init(), before).callers
    ensures var t := Do(After(Init(), before), Arrive(c, q));
            && Runs(t, steps) && Undisturbed(t, c, steps, now, outcome)
            && c in After(t, steps).callers && Ended(After(t, steps).callers[c].phase)
            && Seen(After(t, steps), c)
               == EndingOf(J.Attempt(After(Init(), before).disk.permits, After(Init(), before).disk.records, q, now, outcome))
  {
    hide Inv, Do, Enabled, Placed, Forecast, Seen, EndingOf, J.Attempt;
    InitHolds();
    RunsKeep(Init(), before);
    var s := After(Init(), before);
    NewcomerIsPlaced(s, c, q, now, outcome);
    steps := PlacedEnds(Do(s, Arrive(c, q)), c, now, outcome);
    AloneIsTheAttempt(before, c, q, steps, now, outcome);
  }
}
