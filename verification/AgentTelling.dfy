/**
 What the record of an AI execution says about it: nothing while it is unfinished,
 that a replay gave it up, or exactly what the boundary reported.
 */
module AgentTelling {
  import opened Values
  import opened AgentBoundary
  import opened AgentLedger
  import opened AgentLedgerProofs

  /** The record tells this outcome: UNKNOWN where the adapter raised, else the verdict of the boundary. */
  ghost predicate Tells(r: Record, o: AgentOutcome) {
    && r.accepted == Some(o.accepted)
    && r.status == (if o.result.Some? then Some(o.result.value.status) else None)
    && match o.error
       case None =>
         && r.detail == Some(o.verification.reason)
         && (r.state.Succeeded? <==> o.accepted) && (r.state.Failed? <==> !o.accepted)
       case Some(AdapterException(kind)) => r.state.Unknown? && r.detail == Some("adapter_exception:" + kind)
       case Some(AdapterDisabled) => r.state.Failed? && r.detail == Some("ADAPTER_DISABLED")
       case Some(InvalidResultType) => r.state.Failed? && r.detail == Some("INVALID_RAW_RESULT_TYPE")
       case Some(RequestMismatch) => r.state.Failed? && r.detail == Some("RESULT_REQUEST_ID_MISMATCH")
       case Some(AgentMismatch) => r.state.Failed? && r.detail == Some("RESULT_AGENT_ID_MISMATCH")
       case Some(TaskMismatch) => r.state.Failed? && r.detail == Some("RESULT_TASK_ID_MISMATCH")
       case Some(VerifierException(kind)) => r.state.Failed? && r.detail == Some("verifier_exception:" + kind)
  }

  predicate SaysNothing(r: Record) {
    r.accepted.None? && r.status.None? && r.detail.None?
  }

  predicate GivenUp(r: Record) {
    r.state.Unknown? && r.accepted.None? && r.status.None? && r.detail == Some("REPLAY_AFTER_INCOMPLETE_ATTEMPT")
  }

  /** The boundary reported this on the request, and where it called the adapter for it, caller w did. */
  ghost predicate Judged(log: seq<Attempt>, w: nat, q: AgentRequest, o: AgentOutcome) {
    && (exists conduct :: o == Judge(q, conduct))
    && (o.attempted ==> exists i :: 0 <= i < |log| && log[i] == Attempt(w, q, o))
  }

  ghost predicate ToldBy(r: Record, q: AgentRequest, log: seq<Attempt>, w: nat) {
    exists o :: Judged(log, w, q, o) && Tells(r, o)
  }

  ghost predicate Tale(r: Record, q: AgentRequest, log: seq<Attempt>, w: nat) {
    if Unfinished(r) then SaysNothing(r) else GivenUp(r) || ToldBy(r, q, log, w)
  }

  ghost predicate DirTells(s: Ledger, key: string) {
    key in s.winner && s.winner[key] in s.callers && key in s.dirs && s.dirs[key].Some? ==>
      Tale(s.dirs[key].value, s.callers[s.winner[key]].request, s.log, s.winner[key])
  }

  ghost predicate CallerTells(s: Ledger, c: nat)
    requires c in s.callers
  {
    var key, p := Key(s, c), s.callers[c].phase;
    && (p.Writing? && key in s.winner && s.winner[key] in s.callers ==>
          Tale(p.next, s.callers[s.winner[key]].request, s.log, s.winner[key]))
    && (p.Done? ==> Judged(s.log, c, s.callers[c].request, p.outcome))
  }

  ghost predicate Telling(s: Ledger) {
    (forall key :: DirTells(s, key)) && (forall c :: c in s.callers ==> CallerTells(s, c))
  }

  // ------------------------------------------------------------- what it takes

  lemma FinalTells(r: Record, q: AgentRequest, conduct: Conduct, now: int)
    ensures Tells(Final(r, Judge(q, conduct), now), Judge(q, conduct))
    ensures !Unfinished(Final(r, Judge(q, conduct), now))
  {
    hide IdentityError;
  }

  lemma JudgedStays(log: seq<Attempt>, more: seq<Attempt>, w: nat, q: AgentRequest, o: AgentOutcome)
    requires log <= more && Judged(log, w, q, o)
    ensures Judged(more, w, q, o)
  {
    if o.attempted {
      var i :| 0 <= i < |log| && log[i] == Attempt(w, q, o);
      assert more[i] == log[i];
    }
  }

  lemma TaleStays(r: Record, q: AgentRequest, log: seq<Attempt>, more: seq<Attempt>, w: nat)
    requires log <= more && Tale(r, q, log, w)
    ensures Tale(r, q, more, w)
  {
    hide Judged, Tells;
    if !Unfinished(r) && !GivenUp(r) {
      var o :| Judged(log, w, q, o) && Tells(r, o);
      JudgedStays(log, more, w, q, o);
    }
  }

  /** Requests and winners stay, and the log grows. */
  ghost predicate Ahead(s: Ledger, t: Ledger) {
    && s.log <= t.log
    && (forall d :: d in s.callers ==> d in t.callers && t.callers[d].request == s.callers[d].request)
    && (forall key :: key in s.winner ==> key in t.winner && t.winner[key] == s.winner[key])
  }

  lemma StepIsAhead(s: Ledger, step: Step)
    requires Inv(s) && Enabled(s, step)
    ensures Ahead(s, Do(s, step))
    ensures forall d :: d in Do(s, step).callers && d != step.c ==> d in s.callers && Do(s, step).callers[d] == s.callers[d]
    ensures step.c in Do(s, step).callers
  {
    hide Judge, Continues, Final, CallerOk, LogOk, RecordOk;
  }

  lemma OthersTell(s: Ledger, step: Step, d: nat)
    requires Inv(s) && Enabled(s, step) && d in s.callers && d != step.c && CallerTells(s, d)
    ensures d in Do(s, step).callers && CallerTells(Do(s, step), d)
  {
    var t := Do(s, step);
    StepIsAhead(s, step);
    WriterHasWinner(s, d);
    hide Do, Enabled, Inv, Judged, Tale;
    assert t.callers[d] == s.callers[d];
    var p, key := s.callers[d].phase, Key(s, d);
    if p.Done? {
      JudgedStays(s.log, t.log, d, s.callers[d].request, p.outcome);
    }
    if p.Writing? {
      TaleStays(p.next, s.callers[s.winner[key]].request, s.log, t.log, s.winner[key]);
    }
  }

  lemma WriterHasWinner(s: Ledger, d: nat)
    requires Inv(s) && d in s.callers
    ensures s.callers[d].phase.Writing? ==> Key(s, d) in s.winner && s.winner[Key(s, d)] in s.callers
  {
    hide DirsOk, LogOk, RecordOk;
    assert CallerOk(s, d, s.callers[d]);
  }

  /** Only these two steps change what is on disk under a key. */
  lemma DirsChange(s: Ledger, step: Step, key: string)
    requires Inv(s) && Enabled(s, step) && key in Do(s, step).dirs && Do(s, step).dirs[key].Some?
    ensures || (key in s.dirs && s.dirs[key] == Do(s, step).dirs[key])
            || (step.WriteFirst? && key == Key(s, step.c) && Do(s, step).dirs[key] == Some(Initial(s.callers[step.c].request, step.now)))
            || (step.Store? && key == Key(s, step.c) && Do(s, step).dirs[key] == Some(s.callers[step.c].phase.next))
  {
    hide Judge, Continues, Final, CallerOk, LogOk, RecordOk, Initial, DirsOk;
  }

  lemma WinnerWasThere(s: Ledger, step: Step, key: string)
    requires Inv(s) && Enabled(s, step) && key in s.dirs
    ensures key in s.winner && s.winner[key] in s.callers
    ensures key in Do(s, step).winner && Do(s, step).winner[key] == s.winner[key]
    ensures Do(s, step).callers[s.winner[key]].request == s.callers[s.winner[key]].request
  {
    StepIsAhead(s, step);
    hide Do, Enabled, CallerOk, LogOk, RecordOk;
  }

  lemma DirsTell(s: Ledger, step: Step, key: string)
    requires Inv(s) && Enabled(s, step) && Telling(s)
    ensures DirTells(Do(s, step), key)
  {
    var t := Do(s, step);
    if key in t.dirs && t.dirs[key].Some? {
      DirsChange(s, step, key);
      StepIsAhead(s, step);
      OwnerMadeIt(s, step);
      if key in s.dirs {
        WinnerWasThere(s, step, key);
        assert DirTells(s, key);
        if step.c in s.callers { assert CallerTells(s, step.c); WriterHasWinner(s, step.c); }
        hide Do, Enabled, Inv, Tale;
        var w := s.winner[key];
        var q := s.callers[w].request;
        if s.dirs[key] == t.dirs[key] {
          TaleStays(s.dirs[key].value, q, s.log, t.log, w);
        } else if step.Store? {
          TaleStays(s.callers[step.c].phase.next, q, s.log, t.log, w);
        } else {
          InitialSaysNothing(s.callers[step.c].request, step.now, q, t.log, w);
        }
      }
    }
  }

  lemma OwnerMadeIt(s: Ledger, step: Step)
    requires Inv(s) && Enabled(s, step)
    ensures step.WriteFirst? || step.Store? ==> Key(s, step.c) in s.dirs
  {
    hide LogOk, RecordOk, DirsOk;
    if step.WriteFirst? || step.Store? {
      assert CallerOk(s, step.c, s.callers[step.c]);
    }
  }

  lemma InitialSaysNothing(q: AgentRequest, now: int, other: AgentRequest, log: seq<Attempt>, w: nat)
    ensures Tale(Initial(q, now), other, log, w)
  {
    hide ToldBy;
  }

  lemma ActorTells(s: Ledger, step: Step)
    requires Inv(s) && Enabled(s, step) && Telling(s)
    ensures step.c in Do(s, step).callers && CallerTells(Do(s, step), step.c)
  {
    if step.Run? {
      RunTells(s, step.c, step.conduct);
    } else if step.LoadToFinalize? {
      FinalizeTells(s, step.c, step.now);
    } else if step.Collide? || step.LoadToMark? {
      LoadTells(s, step);
    } else {
      AfterIsQuiet(s, step);
      hide Judged, Tale, Inv, DirTells;
    }
  }

  lemma AfterIsQuiet(s: Ledger, step: Step)
    requires Inv(s) && Enabled(s, step)
    ensures step.Store? ==> var after := s.callers[step.c].phase.after; !after.Writing? && !after.Done?
  {
    hide DirsOk, LogOk, RecordOk;
    if step.Store? {
      assert CallerOk(s, step.c, s.callers[step.c]);
    }
  }

  lemma RunTells(s: Ledger, c: nat, conduct: Conduct)
    requires Inv(s) && Enabled(s, Run(c, conduct))
    ensures CallerTells(Do(s, Run(c, conduct)), c)
  {
    hide Inv, Judge, Tale;
    var t, q := Do(s, Run(c, conduct)), s.callers[c].request;
    var o := Judge(q, conduct);
    if o.attempted {
      assert t.log[|s.log|] == Attempt(c, q, o);
    }
    assert Judged(t.log, c, q, o);
  }

  lemma LoadTells(s: Ledger, step: Step)
    requires Inv(s) && Enabled(s, step) && Telling(s) && (step.Collide? || step.LoadToMark?)
    ensures CallerTells(Do(s, step), step.c)
  {
    var key := Key(s, step.c);
    assert DirTells(s, key);
    hide Inv, Judged, Continues, ToldBy, CallerTells;
    LoadedTells(s, step, key);
  }

  lemma LoadedTells(s: Ledger, step: Step, key: string)
    requires Enabled(s, step) && (step.Collide? || step.LoadToMark?) && key == Key(s, step.c) && DirTells(s, key)
    ensures CallerTells(Do(s, step), step.c)
  {
    hide Judged, Continues, ToldBy;
  }

  lemma FinalizeTells(s: Ledger, c: nat, now: int)
    requires Inv(s) && Enabled(s, LoadToFinalize(c, now)) && Telling(s)
    ensures CallerTells(Do(s, LoadToFinalize(c, now)), c)
  {
    assert CallerTells(s, c);
    DoneIsWinner(s, c);
    hide Inv, Telling;
    var q, o := s.callers[c].request, s.callers[c].phase.outcome;
    var conduct :| o == Judge(q, conduct);
    if Loaded(s, c).Some? {
      var r := Loaded(s, c).value;
      FinalTells(r, q, conduct, now);
      FinalIsATale(Final(r, o, now), q, s.log, c, o);
    }
    hide Judge, Final, Judged, Tale, Tells, Continues;
  }

  lemma DoneIsWinner(s: Ledger, c: nat)
    requires Inv(s) && c in s.callers && s.callers[c].phase.Done?
    ensures Key(s, c) in s.winner && s.winner[Key(s, c)] == c
  {
    hide DirsOk, LogOk, RecordOk;
    assert CallerOk(s, c, s.callers[c]);
  }

  lemma FinalIsATale(r: Record, q: AgentRequest, log: seq<Attempt>, w: nat, o: AgentOutcome)
    requires !Unfinished(r) && Judged(log, w, q, o) && Tells(r, o)
    ensures Tale(r, q, log, w)
  {
    hide Judged, Tells;
    assert ToldBy(r, q, log, w);
  }

  lemma StepKeepsTelling(s: Ledger, step: Step)
    requires Inv(s) && Enabled(s, step) && Telling(s)
    ensures Telling(Do(s, step))
  {
    var t := Do(s, step);
    StepIsAhead(s, step);
    hide Inv, Enabled, Do, DirTells, CallerTells;
    forall key ensures DirTells(t, key) {
      DirsTell(s, step, key);
    }
    forall c | c in t.callers ensures CallerTells(t, c) {
      if c == step.c {
        ActorTells(s, step);
      } else {
        OthersTell(s, step, c);
      }
    }
  }

  lemma {:induction false} RunsKeepTelling(s: Ledger, steps: seq<Step>)
    requires Inv(s) && Telling(s) && Runs(s, steps)
    ensures Inv(After(s, steps)) && Telling(After(s, steps))
    decreases |steps|
  {
    hide Inv, Enabled, Do, Telling;
    if steps != [] {
      StepKeeps(s, steps[0]);
      StepKeepsTelling(s, steps[0]);
      RunsKeepTelling(Do(s, steps[0]), steps[1..]);
    }
  }

  /**
   In every run: an unfinished record says nothing about an outcome; a finished one was
   given up by a replay, or says exactly what the boundary reported to the owner of the
   request, of which there is an attempt of the owner in the log if the adapter was called.
   */
  lemma RecordsTell(steps: seq<Step>, key: string)
    requires Runs(Init(), steps)
    requires var s := After(Init(), steps); key in s.dirs && s.dirs[key].Some?
    ensures var s := After(Init(), steps);
            var r := s.dirs[key].value;
            && key in s.winner && s.winner[key] in s.callers
            && (r.state.Claimed? || r.state.Running? ==> SaysNothing(r))
            && (!r.state.Claimed? && !r.state.Running? && !GivenUp(r) ==>
                  exists o :: Judged(s.log, s.winner[key], s.callers[s.winner[key]].request, o) && Tells(r, o))
  {
    hide Enabled, Do, CallerOk, LogOk, RecordOk, Judged, Tells;
    InitHolds();
    RunsKeepTelling(Init(), steps);
    var s := After(Init(), steps);
    assert DirTells(s, key);
  }

  // ---------------------------------------------------------------- answers

  /** The record is about this very request. */
  ghost predicate About(r: Record, q: AgentRequest) {
    && r.requestId == q.requestId && r.agentId == q.agentId && r.taskId == q.taskId && r.operation == q.operation
    && r.fingerprint.of == q
  }

  /** An answer is a replay exactly if it goes to somebody else than the one who made the directory. */
  ghost predicate AnswerOk(s: Ledger, c: nat, q: Caller) {
    && (q.phase.Returned? ==> About(q.phase.record, q.request) && (q.phase.replayed <==> !Made(s, c, q.request)))
    && (q.phase.Writing? && q.phase.after.Returned? ==>
          About(q.phase.after.record, q.request) && (q.phase.after.replayed <==> !Made(s, c, q.request)))
    && (q.phase.Returned? || (q.phase.Writing? && q.phase.after.Returned?) ==> q.request.requestId in s.winner)
  }

  predicate Made(s: Ledger, c: nat, q: AgentRequest) {
    q.requestId in s.winner && s.winner[q.requestId] == c
  }

  lemma OthersAnswer(s: Ledger, step: Step, d: nat)
    requires Inv(s) && Enabled(s, step) && d in s.callers && d != step.c && AnswerOk(s, d, s.callers[d])
    ensures d in Do(s, step).callers && AnswerOk(Do(s, step), d, Do(s, step).callers[d])
  {
    StepIsAhead(s, step);
    hide Inv, Do, Enabled, About;
  }

  lemma ActorAnswers(s: Ledger, step: Step)
    requires Inv(s) && Enabled(s, step) && (step.c in s.callers ==> AnswerOk(s, step.c, s.callers[step.c]))
    ensures step.c in Do(s, step).callers && AnswerOk(Do(s, step), step.c, Do(s, step).callers[step.c])
  {
    AfterIsQuiet(s, step);
    StepIsAhead(s, step);
    if step.c in s.callers { WhoMadeIt(s, step.c); }
    hide Inv, Judge, Final;
  }

  lemma WhoMadeIt(s: Ledger, c: nat)
    requires Inv(s) && c in s.callers
    ensures s.callers[c].phase.Done? ==> Made(s, c, s.callers[c].request)
    ensures s.callers[c].phase.Colliding? ==> !Made(s, c, s.callers[c].request)
    ensures s.callers[c].phase.Colliding? && Key(s, c) in s.dirs ==> Key(s, c) in s.winner
  {
    hide LogOk, RecordOk;
    assert CallerOk(s, c, s.callers[c]);
  }

  lemma {:induction false} RunsKeepAnswers(s: Ledger, steps: seq<Step>)
    requires Inv(s) && Runs(s, steps) && forall c :: c in s.callers ==> AnswerOk(s, c, s.callers[c])
    ensures forall c :: c in After(s, steps).callers ==> AnswerOk(After(s, steps), c, After(s, steps).callers[c])
    decreases |steps|
  {
    hide Inv, Enabled, Do, AnswerOk;
    if steps != [] {
      var t := Do(s, steps[0]);
      StepKeeps(s, steps[0]);
      StepIsAhead(s, steps[0]);
      ActorAnswers(s, steps[0]);
      forall d | d in s.callers && d != steps[0].c ensures d in t.callers && AnswerOk(t, d, t.callers[d]) {
        OthersAnswer(s, steps[0], d);
      }
      RunsKeepAnswers(t, steps[1..]);
    }
  }

  /**
   In every run, whoever is answered is answered with a record of the very same request,
   as a replay exactly if somebody else made the record.
   */
  lemma AnswersAreForTheRequest(steps: seq<Step>, c: nat)
    requires Runs(Init(), steps)
    requires c in After(Init(), steps).callers && After(Init(), steps).callers[c].phase.Returned?
    ensures var q := After(Init(), steps).callers[c];
            && q.phase.record.requestId == q.request.requestId && q.phase.record.agentId == q.request.agentId
            && q.phase.record.taskId == q.request.taskId && q.phase.record.operation == q.request.operation
            && q.phase.record.fingerprint.of == q.request
            && q.request.requestId in After(Init(), steps).winner
            && (q.phase.replayed <==> After(Init(), steps).winner[q.request.requestId] != c)
  {
    hide Inv, Enabled, Do;
    InitHolds();
    RunsKeepAnswers(Init(), steps);
  }

  /**
   An owner that comes to record its outcome and finds UNKNOWN, which a replay wrote, is
   answered with that record and leaves it alone; where it finds its record RUNNING, its
   next two steps replace it by what the boundary reported.
   */
  lemma OwnerSettles(steps: seq<Step>, c: nat, now: int)
    requires Runs(Init(), steps) && c in After(Init(), steps).callers && After(Init(), steps).callers[c].phase.Done?
    ensures var s := After(Init(), steps);
            Key(s, c) in s.dirs &&
            var r := s.dirs[Key(s, c)];
            && r.Some? && Enabled(s, LoadToFinalize(c, now))
            && var t := Do(s, LoadToFinalize(c, now));
               && t.dirs == s.dirs
               && (r.value.state.Unknown? ==> t.callers[c].phase == Returned(r.value, false))
               && (r.value.state.Running? ==>
                     && Enabled(t, Store(c)) && Do(t, Store(c)).callers[c].phase.Returned?
                     && Do(t, Store(c)).dirs[Key(s, c)] == Some(Do(t, Store(c)).callers[c].phase.record)
                     && Tells(Do(t, Store(c)).callers[c].phase.record, s.callers[c].phase.outcome))
  {
    hide CallerOk, LogOk, Runs, Judge;
    InitHolds();
    RunsKeepTelling(Init(), steps);
    var s := After(Init(), steps);
    assert CallerTells(s, c);
    OwnRecord(s, c);
    var q, o := s.callers[c].request, s.callers[c].phase.outcome;
    var conduct :| o == Judge(q, conduct);
    FinalTells(s.dirs[Key(s, c)].value, q, conduct, now);
    hide Tells, Final, Inv, Telling;
  }

  lemma OwnRecord(s: Ledger, c: nat)
    requires Inv(s) && c in s.callers && s.callers[c].phase.Done?
    ensures Key(s, c) in s.dirs && s.dirs[Key(s, c)].Some? && Loaded(s, c) == s.dirs[Key(s, c)]
  {
    hide LogOk;
    assert CallerOk(s, c, s.callers[c]);
  }

  /** Nobody is ever stuck: from every reachable state each caller that has not ended can take a step, and can crash. */
  lemma NobodyIsStuck(steps: seq<Step>, c: nat)
    requires Runs(Init(), steps) && c in After(Init(), steps).callers
    ensures var s := After(Init(), steps);
            var p := s.callers[c].phase;
            p.Returned? || p.Raised? || p.Crashed? ||
              (Enabled(s, Crash(c)) && exists step: Step :: step.c == c && !step.Crash? && Enabled(s, step))
  {
    var s := After(Init(), steps);
    hide Do, Init, Runs;
    match s.callers[c].phase
    case Arrived => assert Enabled(s, MakeDirectory(c));
    case Made => assert Enabled(s, WriteFirst(c, 0));
    case Colliding => assert Enabled(s, Collide(c, 0));
    case Owner => assert Enabled(s, LoadToMark(c, 0));
    case Writing(_, _) => assert Enabled(s, Store(c));
    case Marked => assert Enabled(s, Run(c, Conduct(false, Malformed, VerifierRaises(""))));
    case Done(_) => assert Enabled(s, LoadToFinalize(c, 0));
    case _ =>
  }
}
