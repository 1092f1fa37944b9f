/** The agent ledger is a single-use register keyed by request id. */
module AgentLedgerProofs {
  import opened Values
  import opened AgentBoundary
  import opened AgentLedger
  import SingleUse

  // ------------------------------------------------------------ preservation

  /** What a step of caller c leaves alone. */
  ghost predicate Frame(s: Ledger, t: Ledger, c: nat) {
    && (forall d :: d in s.callers ==> d in t.callers && t.callers[d].request == s.callers[d].request)
    && (forall d :: d in s.callers && d != c ==> t.callers[d] == s.callers[d])
    && (forall d :: d in t.callers && d != c ==> d in s.callers)
    && (forall key :: key in s.winner ==> key in t.winner && t.winner[key] == s.winner[key])
    && (forall key :: key in t.winner && key !in s.winner ==> t.winner[key] == c)
    && (forall key :: key in s.dirs && s.dirs[key].Some? ==> key in t.dirs && t.dirs[key].Some?)
    && (forall key :: key in s.dirs && s.dirs[key].None? && !(key in s.winner && s.winner[key] == c) ==>
          key in t.dirs && t.dirs[key].None?)
    && s.log <= t.log
  }

  lemma SuccessStays(log: seq<Attempt>, more: seq<Attempt>, w: nat, q: AgentRequest)
    requires log <= more && SuccessLogged(log, w, q)
    ensures SuccessLogged(more, w, q)
  {
    var i :| 0 <= i < |log| && log[i].c == w && log[i].request == q && log[i].outcome.accepted
      && log[i].outcome.result.Some? && log[i].outcome.result.value.status.Succeeded?
      && log[i].outcome.verification.accepted && IdentityError(q, log[i].outcome.result.value).None?;
    assert more[i] == log[i];
  }

  lemma RecordStays(log: seq<Attempt>, more: seq<Attempt>, r: Record, q: AgentRequest, w: nat)
    requires log <= more && RecordOk(r, q, log, w)
    ensures RecordOk(r, q, more, w)
  {
    if r.state.Succeeded? { SuccessStays(log, more, w, q); }
  }

  lemma CallerStays(s: Ledger, t: Ledger, c: nat, d: nat)
    requires Frame(s, t, c) && d != c && d in s.callers && CallerOk(s, d, s.callers[d])
    ensures CallerOk(t, d, t.callers[d])
  {
    hide RecordOk, SuccessLogged;
    var q := s.callers[d];
    var key := q.request.requestId;
    if q.phase.Writing? {
      RecordStays(s.log, t.log, q.phase.next, s.callers[s.winner[key]].request, s.winner[key]);
    }
    if q.phase.Done? && q.phase.outcome.accepted {
      SuccessStays(s.log, t.log, d, q.request);
    }
  }

  lemma CallersStay(s: Ledger, t: Ledger, c: nat)
    requires Inv(s) && Frame(s, t, c) && c in t.callers && CallerOk(t, c, t.callers[c])
    ensures forall d :: d in t.callers ==> CallerOk(t, d, t.callers[d])
  {
    hide CallerOk, DirsOk, LogOk;
    forall d | d in t.callers ensures CallerOk(t, d, t.callers[d]) {
      if d != c { CallerStays(s, t, c, d); }
    }
  }

  lemma LogStays(s: Ledger, t: Ledger, c: nat)
    requires LogOk(s) && Frame(s, t, c) && t.log == s.log
    requires c in s.callers && !BeforeRun(s.callers[c].phase) ==> c in t.callers && !BeforeRun(t.callers[c].phase)
    ensures LogOk(t)
  {}

  /** Steps that write nothing. */
  lemma QuietKeeps(s: Ledger, t: Ledger, c: nat)
    requires Inv(s) && Frame(s, t, c) && t.log == s.log && t.dirs == s.dirs && t.winner == s.winner
    requires c in s.callers && !BeforeRun(s.callers[c].phase) ==> c in t.callers && !BeforeRun(t.callers[c].phase)
    requires c in t.callers && CallerOk(t, c, t.callers[c])
    ensures Inv(t)
  {
    hide CallerOk, RecordOk;
    CallersStay(s, t, c);
    LogStays(s, t, c);
  }

  /** Steps that put a record of the right kind into the directory of a key. */
  lemma WriteKeeps(s: Ledger, t: Ledger, c: nat, key: string, r: Record)
    requires Inv(s) && Frame(s, t, c) && t.log == s.log && t.winner == s.winner
    requires key in s.dirs && t.dirs == s.dirs[key := Some(r)]
    requires key in s.winner && s.winner[key] in s.callers
    requires RecordOk(r, s.callers[s.winner[key]].request, s.log, s.winner[key])
    requires c in s.callers && !BeforeRun(s.callers[c].phase) ==> c in t.callers && !BeforeRun(t.callers[c].phase)
    requires c in t.callers && CallerOk(t, c, t.callers[c])
    ensures Inv(t)
  {
    hide CallerOk, RecordOk;
    CallersStay(s, t, c);
    LogStays(s, t, c);
  }

  lemma MakeDirectoryFrame(s: Ledger, c: nat)
    requires DirsOk(s) && Enabled(s, MakeDirectory(c))
    ensures Frame(s, Do(s, MakeDirectory(c)), c)
  {
    hide RecordOk;
  }

  lemma MakeDirectoryOk(s: Ledger, c: nat)
    requires DirsOk(s) && Enabled(s, MakeDirectory(c)) && CallerOk(s, c, s.callers[c])
    ensures CallerOk(Do(s, MakeDirectory(c)), c, Do(s, MakeDirectory(c)).callers[c])
    ensures DirsOk(Do(s, MakeDirectory(c)))
  {
    hide RecordOk;
  }

  lemma MakeDirectoryKeeps(s: Ledger, c: nat)
    requires Inv(s) && Enabled(s, MakeDirectory(c))
    ensures Inv(Do(s, MakeDirectory(c)))
  {
    hide CallerOk, DirsOk, Frame, LogOk;
    MakeDirectoryFrame(s, c);
    MakeDirectoryOk(s, c);
    CallersStay(s, Do(s, MakeDirectory(c)), c);
    LogStays(s, Do(s, MakeDirectory(c)), c);
  }

  lemma WriteFirstKeeps(s: Ledger, c: nat, now: int)
    requires Inv(s) && Enabled(s, WriteFirst(c, now))
    ensures Inv(Do(s, WriteFirst(c, now)))
  {
    var t := Do(s, WriteFirst(c, now));
    assert CallerOk(s, c, s.callers[c]);
    assert RecordOk(Initial(s.callers[c].request, now), s.callers[c].request, s.log, c);
    hide RecordOk, SuccessLogged, LogOk;
    assert CallerOk(t, c, t.callers[c]);
    hide CallerOk;
    WriteKeeps(s, t, c, Key(s, c), Initial(s.callers[c].request, now));
  }

  lemma StoreKeeps(s: Ledger, c: nat)
    requires Inv(s) && Enabled(s, Store(c))
    ensures Inv(Do(s, Store(c)))
  {
    var t := Do(s, Store(c));
    hide RecordOk, SuccessLogged, LogOk, DirsOk;
    assert CallerOk(s, c, s.callers[c]);
    assert CallerOk(t, c, t.callers[c]);
    hide CallerOk;
    WriteKeeps(s, t, c, Key(s, c), s.callers[c].phase.next);
  }

  /** A loaded record is one of the winner, whose request is the same as the reader's. */
  lemma LoadedIsOk(s: Ledger, c: nat)
    requires DirsOk(s) && c in s.callers && Loaded(s, c).Some?
    ensures Key(s, c) in s.winner && s.winner[Key(s, c)] in s.callers
    ensures s.callers[s.winner[Key(s, c)]].request == s.callers[c].request
    ensures RecordOk(Loaded(s, c).value, s.callers[c].request, s.log, s.winner[Key(s, c)])
  {
    hide SuccessLogged;
  }

  lemma CollideKeeps(s: Ledger, c: nat, now: int)
    requires Inv(s) && Enabled(s, Collide(c, now))
    ensures Inv(Do(s, Collide(c, now)))
  {
    var t := Do(s, Collide(c, now));
    hide SuccessLogged, LogOk, DirsOk;
    assert CallerOk(s, c, s.callers[c]);
    if Loaded(s, c).Some? { LoadedIsOk(s, c); }
    assert CallerOk(t, c, t.callers[c]);
    hide CallerOk, RecordOk, Loaded;
    QuietKeeps(s, t, c);
  }

  lemma MarkKeeps(s: Ledger, c: nat, now: int)
    requires Inv(s) && Enabled(s, LoadToMark(c, now))
    ensures Inv(Do(s, LoadToMark(c, now)))
  {
    var t := Do(s, LoadToMark(c, now));
    hide SuccessLogged, LogOk, DirsOk;
    assert CallerOk(s, c, s.callers[c]);
    if Loaded(s, c).Some? { LoadedIsOk(s, c); }
    assert CallerOk(t, c, t.callers[c]);
    hide CallerOk, RecordOk, Loaded;
    QuietKeeps(s, t, c);
  }

  lemma FinalizeKeeps(s: Ledger, c: nat, now: int)
    requires Inv(s) && Enabled(s, LoadToFinalize(c, now))
    ensures Inv(Do(s, LoadToFinalize(c, now)))
  {
    var t := Do(s, LoadToFinalize(c, now));
    hide SuccessLogged, LogOk, DirsOk;
    assert CallerOk(s, c, s.callers[c]);
    if Loaded(s, c).Some? { LoadedIsOk(s, c); }
    assert CallerOk(t, c, t.callers[c]);
    hide CallerOk, RecordOk, Loaded;
    QuietKeeps(s, t, c);
  }

  lemma RunKeeps(s: Ledger, c: nat, w: Conduct)
    requires Inv(s) && Enabled(s, Run(c, w))
    ensures Inv(Do(s, Run(c, w)))
  {
    hide Judge;
    var t, o := Do(s, Run(c, w)), Judge(s.callers[c].request, w);
    JudgementIsPossible(s.callers[c].request, w);
    assert CallerOk(s, c, s.callers[c]);
    assert Frame(s, t, c);
    if o.accepted {
      var a := t.log[|s.log|];
      assert SuccessLogged(t.log, c, s.callers[c].request);
    }
    hide SuccessLogged;
    assert CallerOk(t, c, t.callers[c]);
    hide CallerOk;
    CallersStay(s, t, c);
    RunDirs(s, t, c);
    RunLog(s, t, c, w);
  }

  lemma RunDirs(s: Ledger, t: Ledger, c: nat)
    requires DirsOk(s) && Frame(s, t, c) && t.dirs == s.dirs && t.winner == s.winner
    ensures DirsOk(t)
  {
    hide RecordOk;
    forall key | key in t.winner && t.dirs[key].Some?
      ensures RecordOk(t.dirs[key].value, t.callers[t.winner[key]].request, t.log, t.winner[key])
    {
      RecordStays(s.log, t.log, s.dirs[key].value, s.callers[s.winner[key]].request, s.winner[key]);
    }
  }

  lemma RunLog(s: Ledger, t: Ledger, c: nat, w: Conduct)
    requires LogOk(s) && Enabled(s, Run(c, w)) && t == Do(s, Run(c, w))
    requires Key(s, c) in s.winner && s.winner[Key(s, c)] == c
    ensures LogOk(t)
  {
    hide Judge;
  }

  lemma ArriveKeeps(s: Ledger, c: nat, q: AgentRequest)
    requires Inv(s) && Enabled(s, Arrive(c, q))
    ensures Inv(Do(s, Arrive(c, q)))
  {
    var t := Do(s, Arrive(c, q));
    hide RecordOk, SuccessLogged;
    assert CallerOk(t, c, t.callers[c]);
    assert Frame(s, t, c);
    hide CallerOk;
    CallersStay(s, t, c);
  }

  lemma CrashKeeps(s: Ledger, c: nat)
    requires Inv(s) && Enabled(s, Crash(c))
    ensures Inv(Do(s, Crash(c)))
  {
    var t := Do(s, Crash(c));
    hide RecordOk, SuccessLogged, LogOk, DirsOk;
    assert CallerOk(t, c, t.callers[c]);
    hide CallerOk;
    QuietKeeps(s, t, c);
  }

  lemma StepKeeps(s: Ledger, step: Step)
    requires Inv(s) && Enabled(s, step)
    ensures Inv(Do(s, step))
  {
    hide Inv, Enabled, Do;
    match step
    case Arrive(c, q) => ArriveKeeps(s, c, q);
    case MakeDirectory(c) => MakeDirectoryKeeps(s, c);
    case WriteFirst(c, now) => WriteFirstKeeps(s, c, now);
    case Collide(c, now) => CollideKeeps(s, c, now);
    case LoadToMark(c, now) => MarkKeeps(s, c, now);
    case Run(c, w) => RunKeeps(s, c, w);
    case LoadToFinalize(c, now) => FinalizeKeeps(s, c, now);
    case Store(c) => StoreKeeps(s, c);
    case Crash(c) => CrashKeeps(s, c);
  }

  // -------------------------------------------------------------- refinement

  function VerdictOf(r: Option<Record>): Option<SingleUse.Verdict> {
    if r.None? then None
    else
      match r.value.state
      case Succeeded => Some(SingleUse.Success)
      case Failed => Some(SingleUse.Failure)
      case Unknown => Some(SingleUse.Unknown)
      case _ => None
  }

  /** The register's verdict is the record's state, for a finished record, and none otherwise. */
  lemma VerdictsAreStates(r: Option<Record>)
    ensures VerdictOf(r) == Some(SingleUse.Success) <==> r.Some? && r.value.state.Succeeded?
    ensures VerdictOf(r) == Some(SingleUse.Failure) <==> r.Some? && r.value.state.Failed?
    ensures VerdictOf(r) == Some(SingleUse.Unknown) <==> r.Some? && r.value.state.Unknown?
  {}

  function Performs(log: seq<Attempt>): (r: seq<SingleUse.Perform>)
    ensures |r| == |log| && forall i :: 0 <= i < |r| ==> r[i] == SingleUse.Perform(log[i].request.requestId, log[i].c)
  {
    seq(|log|, i requires 0 <= i < |log| => SingleUse.Perform(log[i].request.requestId, log[i].c))
  }

  function Abs(s: Ledger): SingleUse.Register {
    SingleUse.Register(
      map key | key in s.dirs && key in s.winner :: SingleUse.Cell(s.winner[key], VerdictOf(s.dirs[key])),
      Performs(s.log))
  }

  /** The write still finds an unfinished record (or writes what is there). */
  predicate Guarded(s: Ledger, step: Step)
    requires Enabled(s, step)
  {
    step.Store? && Key(s, step.c) in s.dirs && s.dirs[Key(s, step.c)].Some? ==>
      Unfinished(s.dirs[Key(s, step.c)].value) || s.dirs[Key(s, step.c)].value == s.callers[step.c].phase.next
  }

  function ActionOf(s: Ledger, step: Step): SingleUse.Action
    requires Enabled(s, step)
  {
    match step
    case MakeDirectory(c) => if Key(s, c) in s.dirs then SingleUse.Stutter else SingleUse.Acquire(Key(s, c), c)
    case Run(c, w) => if Judge(s.callers[c].request, w).attempted then SingleUse.Act(Key(s, c), c) else SingleUse.Stutter
    case Store(c) =>
      if Key(s, c) !in s.dirs then SingleUse.Stutter
      else
        var stands, comes := VerdictOf(s.dirs[Key(s, c)]), VerdictOf(Some(s.callers[c].phase.next));
        if stands == comes then SingleUse.Stutter
        else if stands.Some? then SingleUse.Overwrite(Key(s, c), comes)
        else if Replays(s.callers[c].phase) then SingleUse.Force(Key(s, c))
        else SingleUse.Settle(Key(s, c), c, comes.value)
    case _ => SingleUse.Stutter
  }

  lemma RunRefinesStep(s: Ledger, c: nat, w: Conduct)
    requires Inv(s) && Enabled(s, Run(c, w))
    ensures SingleUse.Can(Abs(s), ActionOf(s, Run(c, w)))
    ensures SingleUse.Next(Abs(s), ActionOf(s, Run(c, w))) == Abs(Do(s, Run(c, w)))
  {
    hide RecordOk, SuccessLogged, Judge;
    assert CallerOk(s, c, s.callers[c]);
    assert !SingleUse.Performed(Abs(s), Key(s, c));
    assert SingleUse.Next(Abs(s), ActionOf(s, Run(c, w))).performed == Abs(Do(s, Run(c, w))).performed;
  }

  lemma SuccessIsPerformed(s: Ledger, c: nat)
    requires Inv(s) && c in s.callers && s.callers[c].phase.Writing? && s.callers[c].phase.next.state.Succeeded?
    ensures SingleUse.Performed(Abs(s), Key(s, c))
  {
    assert CallerOk(s, c, s.callers[c]);
    var w := s.winner[Key(s, c)];
    assert Key(s, w) == Key(s, c);
    assert SuccessLogged(s.log, w, s.callers[w].request);
    var i :| 0 <= i < |s.log| && s.log[i].c == w && s.log[i].request == s.callers[w].request;
    assert Abs(s).performed[i].key == Key(s, c);
  }

  lemma StoreRefines(s: Ledger, c: nat)
    requires Inv(s) && Enabled(s, Store(c))
    ensures SingleUse.Can(Abs(s), ActionOf(s, Store(c)))
    ensures SingleUse.Next(Abs(s), ActionOf(s, Store(c))) == Abs(Do(s, Store(c)))
    ensures Guarded(s, Store(c)) ==> !ActionOf(s, Store(c)).Overwrite?
  {
    hide RecordOk, SuccessLogged, LogOk;
    assert CallerOk(s, c, s.callers[c]);
    if s.callers[c].phase.next.state.Succeeded? { SuccessIsPerformed(s, c); }
    hide CallerOk;
  }

  lemma DirectoryRefines(s: Ledger, step: Step)
    requires Inv(s) && Enabled(s, step) && (step.MakeDirectory? || step.WriteFirst?)
    ensures SingleUse.Can(Abs(s), ActionOf(s, step))
    ensures SingleUse.Next(Abs(s), ActionOf(s, step)) == Abs(Do(s, step))
  {
    hide RecordOk, SuccessLogged, LogOk;
    assert CallerOk(s, step.c, s.callers[step.c]);
    hide CallerOk;
  }

  lemma OtherStepRefines(s: Ledger, step: Step)
    requires Enabled(s, step) && !step.Run? && !step.Store? && !step.MakeDirectory? && !step.WriteFirst?
    ensures ActionOf(s, step) == SingleUse.Stutter && Abs(Do(s, step)) == Abs(s)
  {
    hide Continues, Final, Judge;
  }

  /** Every step is one action of the register; a guarded one never overwrites a verdict. */
  lemma StepRefines(s: Ledger, step: Step)
    requires Inv(s) && Enabled(s, step)
    ensures SingleUse.Can(Abs(s), ActionOf(s, step))
    ensures SingleUse.Next(Abs(s), ActionOf(s, step)) == Abs(Do(s, step))
    ensures Guarded(s, step) ==> !ActionOf(s, step).Overwrite?
  {
    hide Inv, Do, Abs;
    if step.Run? {
      RunRefinesStep(s, step.c, step.conduct);
    } else if step.Store? {
      StoreRefines(s, step.c);
    } else if step.MakeDirectory? || step.WriteFirst? {
      DirectoryRefines(s, step);
    } else {
      OtherStepRefines(s, step);
    }
  }

  function Actions(s: Ledger, steps: seq<Step>): seq<SingleUse.Action>
    requires Runs(s, steps)
    decreases |steps|
  {
    if steps == [] then [] else [ActionOf(s, steps[0])] + Actions(Do(s, steps[0]), steps[1..])
  }

  predicate GuardedRun(s: Ledger, steps: seq<Step>)
    requires Runs(s, steps)
    decreases |steps|
  {
    steps == [] || (Guarded(s, steps[0]) && GuardedRun(Do(s, steps[0]), steps[1..]))
  }

  lemma {:induction false} RunRefines(s: Ledger, steps: seq<Step>)
    requires Inv(s) && Runs(s, steps)
    ensures Inv(After(s, steps))
    ensures SingleUse.Follows(Abs(s), Actions(s, steps))
    ensures SingleUse.End(Abs(s), Actions(s, steps)) == Abs(After(s, steps))
    ensures GuardedRun(s, steps) ==> forall a :: a in Actions(s, steps) ==> !a.Overwrite?
    decreases |steps|
  {
    hide Inv, Enabled, Do, Guarded, Abs, ActionOf;
    if steps != [] {
      StepRefines(s, steps[0]);
      StepKeeps(s, steps[0]);
      RunRefines(Do(s, steps[0]), steps[1..]);
      assert Actions(s, steps)[1..] == Actions(Do(s, steps[0]), steps[1..]);
    }
  }

  lemma InitHolds()
    ensures Inv(Init()) && Abs(Init()) == SingleUse.EMPTY
  {}

  // ---------------------------------------------------------------- theorems

  /** In every run, however writes overlap, the adapter is called at most once for a request id. */
  lemma AtMostOnce(steps: seq<Step>, i: nat, j: nat)
    requires Runs(Init(), steps) && i < j < |After(Init(), steps).log|
    ensures After(Init(), steps).log[i].request.requestId != After(Init(), steps).log[j].request.requestId
  {
    hide Inv, Enabled, Do, ActionOf;
    InitHolds();
    RunRefines(Init(), steps);
    SingleUse.RegisterIsSound(SingleUse.EMPTY, Actions(Init(), steps));
    var r := Abs(After(Init(), steps));
    assert r.performed[i].key != r.performed[j].key;
  }

  /**
   A record that says SUCCEEDED: the adapter was called for exactly this request, its
   result carried the same ids and the agent's own success, and the verifier accepted it.
   */
  lemma SuccessWasVouchedFor(steps: seq<Step>, key: string)
    requires Runs(Init(), steps)
    requires var s := After(Init(), steps); key in s.dirs && s.dirs[key].Some? && s.dirs[key].value.state.Succeeded?
    ensures var s := After(Init(), steps);
            exists i :: 0 <= i < |s.log| && s.log[i].request == s.dirs[key].value.fingerprint.of
              && s.log[i].request.requestId == key && s.log[i].outcome.accepted
              && s.log[i].outcome.result.Some? && s.log[i].outcome.result.value.status.Succeeded?
              && s.log[i].outcome.verification.accepted
              && IdentityError(s.log[i].request, s.log[i].outcome.result.value).None?
  {
    hide Enabled, Do, ActionOf, LogOk, CallerOk, Abs;
    InitHolds();
    RunRefines(Init(), steps);
    var s := After(Init(), steps);
    var w := s.winner[key];
    assert RecordOk(s.dirs[key].value, s.callers[w].request, s.log, w);
    assert SuccessLogged(s.log, w, s.callers[w].request);
  }
}
