/**
 A restart as the Commander runs it: the policy's answer, the attempt record, the
 execution through the journal, and an observation of its own afterwards. Execution
 success alone is not recovery.
 */
module VerifiedExecution {
  import opened Values
  import opened JournalDisk
  import opened Journal
  import F = Fingerprints
  import opened BoundPolicy

  /** One line per production attempt, written before anything is executed. */
  datatype AttemptRecord = AttemptRecord(runId: string, effectFingerprint: string, at: int)

  class AttemptLedger {
    var attempts: seq<AttemptRecord>

    constructor ()
      ensures attempts == []
    {
      attempts := [];
    }
  }

  /** What the observation after an execution does: it may raise, or be judged by the verifier. */
  datatype Observation = ObservationRaises | Observed(verified: bool)

  datatype Report = Report(authorized: bool, execution: Option<Output>, replayed: bool, verification: Option<bool>)

  predicate Recovered(r: Report) {
    r.execution.Some? && r.execution.value.exitCode == 0 && r.verification == Some(true)
  }

  function RecordOf(e: Effect, now: int): AttemptRecord {
    AttemptRecord(RunKey(e), e.fingerprint, now)
  }

  /**
   `execute_verified`; None where it raises. `appendWorks` says whether the attempt
   record can be written; `outcome` is the executor's behaviour, if it comes to that.
   */
  method ExecuteVerified(
      h: string -> string, journal: ExecutionJournal, ledger: AttemptLedger, e: F.BoundEffect, v: BoundPolicy.Verdict,
      production: bool, appendWorks: bool, now: int, outcome: Option<Output>, observation: Observation)
    returns (r: Option<Report>, called: bool)
    modifies journal, ledger
    // a denial touches nothing
    ensures !v.allow ==>
      r == Some(Report(false, None, false, None)) && !called && journal.permits == old(journal.permits) && journal.root == old(journal.root)
      && ledger.attempts == old(ledger.attempts)
    // a production attempt that cannot be recorded is not made
    ensures v.allow && production && !appendWorks ==>
      r.None? && !called && journal.permits == old(journal.permits) && journal.root == old(journal.root)
    // otherwise the record comes first and the journal does exactly what it does for the request
    ensures v.allow && (production ==> appendWorks) ==>
      && ledger.attempts == old(ledger.attempts) + (if production then [RecordOf(F.View(h, e), now)] else [])
      && var attempt := Attempt(old(journal.permits), old(journal.root), RequestOf(h, e, v), now, outcome);
         && Outcome(journal.permits, journal.root, called, attempt.answer) == attempt
         && (r.Some? ==> attempt.answer.Ok? && r.value.execution == attempt.answer.value.result
                         && r.value.replayed == attempt.answer.value.replayed)
    ensures called ==> v.allow && (production ==> ledger.attempts != old(ledger.attempts))
    // recovery takes a successful execution and a verified observation after it
    ensures r.Some? ==> (Recovered(r.value) <==>
      r.value.authorized && r.value.execution.Some? && r.value.execution.value.exitCode == 0 && observation == Observed(true))
    ensures r.Some? ==> r.value.authorized == v.allow
    ensures r.Some? ==>
      r.value.verification == if r.value.execution.Some? && r.value.execution.value.exitCode == 0 && observation.Observed?
                              then Some(observation.verified) else None
  {
    hide Attempt, F.View, F.Mint, RunKey;
    if !v.allow {
      return Some(Report(false, None, false, None)), false;
    }
    if production {
      if !appendWorks {
        return None, false;
      }
      ledger.attempts := ledger.attempts + [RecordOf(F.View(h, e), now)];
    }
    var answer, reached := journal.Execute(RequestOf(h, e, v), now, outcome);
    called := reached;
    if answer.Err? {
      return None, called;
    }
    var execution := answer.value.result;
    if execution.None? || execution.value.exitCode != 0 {
      return Some(Report(true, execution, answer.value.replayed, None)), called;
    }
    match observation {
      case ObservationRaises => return None, called;
      case Observed(verified) => return Some(Report(true, execution, answer.value.replayed, Some(verified))), called;
    }
  }

  /**
   Trying the same effect again, whatever became of the first time: the executor is
   not called a second time, and a success that was replayed still has to be observed.
   */
  method TryTwice(
      h: string -> string, journal: ExecutionJournal, ledger: AttemptLedger, e: F.BoundEffect, v: BoundPolicy.Verdict,
      now: int, outcome: Option<Output>, first: Observation, later: int, other: Option<Output>, second: Observation)
    returns (r: Option<Report>, again: bool)
    requires v.allow && Attempt(journal.permits, journal.root, RequestOf(h, e, v), now, outcome).called
    modifies journal, ledger
    ensures !again
    ensures r.Some? && Recovered(r.value) ==> r.value.replayed && second == Observed(true)
    ensures |ledger.attempts| == |old(ledger.attempts)| + 2
  {
    ghost var permits, root, q := journal.permits, journal.root, RequestOf(h, e, v);
    hide RequestOf;
    var report, called := ExecuteVerified(h, journal, ledger, e, v, true, true, now, outcome, first);
    CalledOnce(permits, root, q, now, outcome, q, later, other);
    UncalledIsReplayed(journal.permits, journal.root, q, later, other);
    hide Attempt;
    r, again := ExecuteVerified(h, journal, ledger, e, v, true, true, later, other, second);
  }

  /** An answer without a call is a replay. */
  lemma UncalledIsReplayed(permits: map<string, Permit>, root: Root, q: Request, now: int, outcome: Option<Output>)
    ensures var a := Attempt(permits, root, q, now, outcome);
            !a.called && a.answer.Ok? ==> a.answer.value.replayed
  {
    hide CommandOf, IdOf, RunKey, PermitOf, ClaimOk, Admitted, Settled, RawId, ValidateId, Rebuild, FreshRecord, Validates;
  }
}
