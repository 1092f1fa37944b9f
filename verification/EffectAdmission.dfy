/**
 What a caller can count on before the executor is called, in the fields that the
 caller itself can compare: which texts name an identity, and which requests are
 ever carried out.
 */
module EffectAdmission {
  import opened Values
  import opened JournalDisk
  import opened EffectProtocol
  import opened EffectInvariant
  import opened EffectSteps
  import opened EffectTheorems

  // -------------------------------------------------------------------- names

  const BLANKS: set<char> :=
    {' ', '\t', '\n', '\r', 0x0B as char, 0x0C as char, 0x1C as char, 0x1D as char, 0x1E as char, 0x1F as char}

  const ID_OTHERS: string := "0123456789._:-"

  /** t is s without blanks at its ends, and there are no more of them. */
  ghost predicate Trims(s: string, t: string) {
    && (exists i, j :: 0 <= i <= j <= |s| && t == s[i..j] && OnlyBlanks(s[..i]) && OnlyBlanks(s[j..]))
    && (t != "" ==> t[0] !in BLANKS && t[|t| - 1] !in BLANKS)
  }

  predicate OnlyBlanks(s: string) {
    forall k :: 0 <= k < |s| ==> s[k] in BLANKS
  }

  lemma BlankIsABlank(c: char)
    ensures Blank(c) <==> c in BLANKS
  {
    if Blank(c) && c != ' ' {
      assert c as int == 9 || c as int == 10 || c as int == 11 || c as int == 12 || c as int == 13
          || c as int == 0x1C || c as int == 0x1D || c as int == 0x1E || c as int == 0x1F;
    }
  }

  lemma {:induction false} LeftTrims(s: string) returns (i: nat)
    ensures i <= |s| && StripLeft(s) == s[i..] && OnlyBlanks(s[..i])
    ensures StripLeft(s) != "" ==> StripLeft(s)[0] !in BLANKS
  {
    if s != [] {
      BlankIsABlank(s[0]);
    }
    if s != [] && Blank(s[0]) {
      var rest := LeftTrims(s[1..]);
      i := rest + 1;
      assert s[..i] == [s[0]] + s[1..][..rest];
    } else {
      i := 0;
    }
  }

  lemma {:induction false} RightTrims(s: string) returns (j: nat)
    ensures j <= |s| && StripRight(s) == s[..j] && OnlyBlanks(s[j..])
    ensures StripRight(s) != "" ==> s[j - 1] !in BLANKS
  {
    if s != [] {
      BlankIsABlank(s[|s| - 1]);
    }
    if s != [] && Blank(s[|s| - 1]) {
      var rest := RightTrims(s[..|s| - 1]);
      j := rest;
      assert s[j..] == s[..|s| - 1][j..] + [s[|s| - 1]];
    } else {
      j := |s|;
    }
  }

  lemma StripTrims(s: string)
    ensures Trims(s, Strip(s))
  {
    var i := LeftTrims(s);
    var left := s[i..];
    var j := RightTrims(left);
    assert left[..j] == s[i..i + j] && left[j..] == s[i + j..];
    assert Strip(s) != "" ==> Strip(s)[0] == left[0];
  }

  lemma Other(c: char)
    ensures '0' <= c <= '9' || c == '.' || c == '_' || c == ':' || c == '-' <==> c in ID_OTHERS
  {
    if '0' <= c <= '9' {
      assert forall k :: 0 <= k < 10 ==> ID_OTHERS[k] as int == 48 + k;
      assert ID_OTHERS[c as int - 48] == c;
    }
    assert ID_OTHERS[10] == '.' && ID_OTHERS[11] == '_' && ID_OTHERS[12] == ':' && ID_OTHERS[13] == '-';
  }

  /** The directory of an identity lies in the journal's root: its name has no separator and is no dotted path. */
  lemma IdentityNames(raw: string, id: string)
    ensures ValidateId(raw) == Some(id) <==>
      && Strip(raw) == id && id != "" && id != "." && id != ".."
      && forall k :: 0 <= k < |id| ==> 'A' <= id[k] <= 'Z' || 'a' <= id[k] <= 'z' || id[k] in ID_OTHERS
  {
    hide Strip;
    forall k | 0 <= k < |id|
      ensures IdCharacter(id[k]) <==> 'A' <= id[k] <= 'Z' || 'a' <= id[k] <= 'z' || id[k] in ID_OTHERS
    {
      Other(id[k]);
    }
    hide IdCharacter;
  }

  // ------------------------------------------------------------ whom it serves

  ghost predicate CallsAdmitted(s: State) {
    forall i :: 0 <= i < |s.log| && s.log[i].Called? ==> Admitted(s.log[i].request)
  }

  lemma StepKeepsAdmitted(s: State, step: Step)
    requires Inv(s) && Enabled(s, step) && CallsAdmitted(s)
    ensures CallsAdmitted(Do(s, step))
  {
    hide Inv, Admitted;
    if step.Call? {
      CallerFact(s, step.c);
      ArmedIsAdmitted(s, step.c);
      hide CallerOk;
    } else {
      OnlyCallsAreLogged(s, step);
      hide Do, Enabled;
    }
  }

  lemma ArmedIsAdmitted(s: State, c: nat)
    requires c in s.callers && CallerOk(s, c, s.callers[c]) && s.callers[c].phase.Armed?
    ensures Admitted(s.callers[c].request)
  {
    hide IdOf, RecordOk, PermitOk, WritingOk, ReturnedOk, OwnerOk, Admitted;
  }

  lemma OnlyCallsAreLogged(s: State, step: Step)
    requires Enabled(s, step) && !step.Call?
    ensures var t := Do(s, step); s.log <= t.log && forall i :: |s.log| <= i < |t.log| ==> !t.log[i].Called?
  {
    hide IdOf, RunKey, PermitOf, ClaimOk, Validates, RawId, ValidateId, FreshRecord, Rebuild, NameTaken, Transition, PlanOf,
         Admitted, AfterRecord, AfterRefusal;
  }

  lemma {:induction false} RunsKeepAdmitted(s: State, steps: seq<Step>)
    requires Inv(s) && CallsAdmitted(s) && Runs(s, steps)
    ensures CallsAdmitted(After(s, steps))
    decreases |steps|
  {
    hide Inv, Enabled, Do, CallsAdmitted;
    if steps != [] {
      StepKeeps(s, steps[0]);
      StepKeepsAdmitted(s, steps[0]);
      RunsKeepAdmitted(Do(s, steps[0]), steps[1..]);
    }
  }

  /**
   In every run, whatever was called was allowed, and a bound call was allowed by an
   authorization and a decision that name exactly its effect, field by field, on a
   target that may be acted on.
   */
  lemma CalledWasAuthorized(steps: seq<Step>, i: nat)
    requires Runs(Init(), steps) && i < |After(Init(), steps).log| && After(Init(), steps).log[i].Called?
    ensures After(Init(), steps).log[i].request.decision.allow
    ensures var r := After(Init(), steps).log[i].request;
            r.Bound? ==>
              var e, a := r.effect, r.authorization;
              && a.allow && e.liveEligible && Strip(e.runId) != ""
              && a.runId == Strip(e.runId) && a.executionId == e.executionId && a.permitId == e.permitId
              && a.incidentId == e.incidentId && a.componentId == e.componentId && a.action == e.action
              && a.targetFingerprint == e.targetFingerprint && a.effectFingerprint == e.fingerprint
              && r.decision.componentId == e.componentId && r.decision.action == e.action
  {
    hide Inv, Enabled, Do, Strip;
    InitHolds();
    RunsKeepAdmitted(Init(), steps);
  }

  // ------------------------------------------------------------------ progress

  /** What CallerOk says of a caller that can take a step. */
  lemma StepsAhead(s: State, c: nat)
    requires Inv(s) && c in s.callers
    ensures s.callers[c].phase.Linking? ==> s.callers[c].request.Bound?
    ensures s.callers[c].phase.Staged? ==> c in s.disk.staging
    ensures s.callers[c].phase.Armed? ==> s.callers[c].request.decision.allow
    ensures !s.callers[c].phase.Fetching?
  {
    CallerFact(s, c);
    if s.callers[c].phase.Armed? {
      ArmedIsAdmitted(s, c);
    }
    hide Inv, IdOf, RecordOk, PermitOk, WritingOk, ReturnedOk, OwnerOk, RunKey, Matches;
  }

  function AheadOf(c: nat, p: Phase): Step {
    match p
    case Arrived => Admit(c)
    case Linking => Link(c)
    case Permitted => ReadPermitted(c)
    case Ready => Stage(c, 0)
    case Staged => Publish(c)
    case Waiting => Poll(c)
    case Writing(_, _) => Store(c)
    case Armed => Call(c, None)
    case _ => Load(c, 0)
  }

  lemma AheadIsEnabled(s: State, c: nat)
    requires c in s.callers && !Ended(s.callers[c].phase)
    requires s.callers[c].phase.Linking? ==> s.callers[c].request.Bound?
    requires s.callers[c].phase.Staged? ==> c in s.disk.staging
    requires s.callers[c].phase.Armed? ==> s.callers[c].request.decision.allow
    requires !s.callers[c].phase.Fetching?
    ensures Enabled(s, AheadOf(c, s.callers[c].phase)) && Enabled(s, Crash(c))
  {}

  /** Nobody is ever stuck: from every reachable state each caller that has not ended can take a step, and can crash. */
  lemma NobodyIsStuck(steps: seq<Step>, c: nat)
    requires Runs(Init(), steps) && c in After(Init(), steps).callers
    ensures var s := After(Init(), steps);
            var p := s.callers[c].phase;
            p.Returned? || p.Raised? || p.Crashed? ||
              (Enabled(s, Crash(c)) && exists step: Step :: !step.Crash? && ActorOf(step) == c && Enabled(s, step))
  {
    InitHolds();
    RunsKeep(Init(), steps);
    var s := After(Init(), steps);
    hide Do, Init, Runs, Inv, Enabled;
    if !Ended(s.callers[c].phase) {
      StepsAhead(s, c);
      AheadIsEnabled(s, c);
      var step := AheadOf(c, s.callers[c].phase);
      assert !step.Crash? && ActorOf(step) == c && Enabled(s, step);
    }
  }

  /**
   An owner that comes too late, its record being finished already by a sweep, changes
   nothing: before the call it ends with an exception at once; after it, unless the record
   says what it was going to write, it first handles the exception, and ends with it.
   */
  lemma LateOwnersRaise(s: State, c: nat, now: int)
    requires Enabled(s, Load(c, now)) && IdOf(s.callers[c].request) in s.disk.records
    requires s.disk.records[IdOf(s.callers[c].request)].status.Unknown?
    ensures var t := Do(s, Load(c, now));
            && t.disk == s.disk && c in t.callers
            && (s.callers[c].phase.Won? || s.callers[c].phase.Handling? ==> t.callers[c].phase.Raised?)
            && (s.callers[c].phase.Finished? ==> t.callers[c].phase.Handling?)
  {
    hide IdOf, CommandOf, Updated, Keep;
  }
}
