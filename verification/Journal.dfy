/**
 The execution-identity journal and its boundary as one process runs them, with
 nobody else at work: the disk is a field that the methods update in place.
 Module EffectProtocol has the same operations interleaved.
 */
module Journal {
  import opened Values
  import opened JournalDisk
  import CanonicalJson

  datatype Error = NotFound | InvalidId | Terminated | BackToClaimed | Denied | PermitConflict | BadClaim
    | TimedOut | Unreadable | PermitWithoutIdentity | Mismatch | ExecutorRaised | ResultMismatch

  predicate Unfinished(r: Record) {
    r.status.Claimed? || r.status.Running?
  }

  predicate Verdict(r: Record) {
    r.status.Succeeded? || r.status.Failed?
  }

  // --------------------------------------------------------------- the sweep

  /**
   The directories under the journal's root, by name. A published identity has
   its execution id for a name; a claim that crashed before its rename leaves a
   private directory, of another name, with a CLAIMED record in it.
   */
  type Root = map<string, Record>

  /** What one `transition` to UNKNOWN does, starting from the record under the id. */
  function Interrupt(root: Root, id: string, now: int): Result<(Root, Record), Error> {
    if id !in root then Err(NotFound)
    else
      match Transition(root[id], Unknown, None, Some(INTERRUPTED), now)
      case Refused => Err(Terminated)
      case Kept(record) => Ok((root, record))
      case Write(next) => Ok((root[id := next], next))
  }

  /** The sweep over a directory listing: the root it leaves, and the records recovered or the error that ended it. */
  function Sweep(root: Root, listing: seq<string>, now: int): (Root, Result<seq<Record>, Error>)
    decreases |listing|
  {
    if listing == [] then (root, Ok([]))
    else if listing[0] !in root || !Unfinished(root[listing[0]]) then Sweep(root, listing[1..], now)
    else
      match Interrupt(root, root[listing[0]].executionId, now)
      case Err(e) => (root, Err(e))
      case Ok((next, record)) =>
        var rest := Sweep(next, listing[1..], now);
        (rest.0, match rest.1 case Ok(records) => Ok([record] + records) case Err(e) => Err(e))
  }

  /** A private directory never has the name of an identity. */
  ghost predicate WellNamed(root: Root) {
    forall name, other :: name in root && other in root && root[other].executionId == name ==> root[name].executionId == name
  }

  ghost predicate Lists(listing: seq<string>, root: Root) {
    forall name :: name in root ==> name in listing
  }

  /** A leftover claim whose identity was never published, or has a verdict by now. */
  ghost predicate Stray(root: Root, name: string) {
    && name in root && Unfinished(root[name])
    && (root[name].executionId !in root || Verdict(root[root[name].executionId]))
  }

  /** Where the sweep may have got to: records are as they were, or interrupted. */
  ghost predicate Swept(root: Root, next: Root, now: int) {
    && next.Keys == root.Keys
    && forall name :: name in root ==>
         || next[name] == root[name]
         || (Unfinished(root[name]) && root[name].executionId == name
             && next[name] == Updated(root[name], Unknown, None, Some(INTERRUPTED), now))
  }

  /** An interruption writes over the identity itself, or changes nothing. */
  lemma InterruptOutcome(root: Root, name: string, now: int)
    requires WellNamed(root) && name in root && Unfinished(root[name])
    ensures Interrupt(root, root[name].executionId, now).Err? <==> Stray(root, name)
    ensures Interrupt(root, root[name].executionId, now).Ok? ==>
              var id, next := root[name].executionId, Interrupt(root, root[name].executionId, now).value.0;
              && id in root && root[id].executionId == id
              && next == if Unfinished(root[id]) then root[id := Updated(root[id], Unknown, None, Some(INTERRUPTED), now)] else root
  {
    hide Updated;
  }

  lemma InterruptionKeeps(root: Root, id: string, now: int)
    requires WellNamed(root) && id in root && Unfinished(root[id]) && root[id].executionId == id
    ensures var next := root[id := Updated(root[id], Unknown, None, Some(INTERRUPTED), now)];
            && Swept(root, next, now) && WellNamed(next) && next[id].status.Unknown?
            && forall other :: Stray(next, other) <==> Stray(root, other)
  {
    var next := root[id := Updated(root[id], Unknown, None, Some(INTERRUPTED), now)];
    assert next[id].executionId == id && next[id].status.Unknown?;
    hide Updated;
    assert forall other :: other in root ==> next[other].executionId == root[other].executionId;
  }

  lemma InterruptStep(root: Root, name: string, now: int)
    requires WellNamed(root) && name in root && Unfinished(root[name])
    ensures Interrupt(root, root[name].executionId, now).Err? <==> Stray(root, name)
    ensures Interrupt(root, root[name].executionId, now).Ok? ==>
              var next := Interrupt(root, root[name].executionId, now).value.0;
              && Swept(root, next, now) && WellNamed(next)
              && (root[name].executionId == name ==> next[name].status.Unknown?)
              && (forall other :: Stray(next, other) <==> Stray(root, other))
  {
    InterruptOutcome(root, name, now);
    hide Interrupt, WellNamed, Stray, Updated;
    var id := root[name].executionId;
    if id in root && root[id].executionId == id && Unfinished(root[id]) {
      InterruptionKeeps(root, id, now);
    }
  }

  lemma SweptTransitive(a: Root, b: Root, c: Root, now: int)
    requires Swept(a, b, now) && Swept(b, c, now)
    ensures Swept(a, c, now)
  {}

  /** Whatever happens, records only go from unfinished to UNKNOWN, and private directories stay. */
  lemma {:induction false} SweepOnlyInterrupts(root: Root, listing: seq<string>, now: int)
    requires WellNamed(root)
    ensures Swept(root, Sweep(root, listing, now).0, now)
    decreases |listing|
  {
    if listing != [] {
      if listing[0] !in root || !Unfinished(root[listing[0]]) {
        SweepOnlyInterrupts(root, listing[1..], now);
      } else {
        InterruptStep(root, listing[0], now);
        match Interrupt(root, root[listing[0]].executionId, now)
        case Err(e) =>
        case Ok((next, record)) =>
          SweepOnlyInterrupts(next, listing[1..], now);
          SweptTransitive(root, next, Sweep(next, listing[1..], now).0, now);
      }
    }
  }

  lemma {:induction false} SweepFailsOnStray(root: Root, listing: seq<string>, now: int)
    requires WellNamed(root)
    ensures Sweep(root, listing, now).1.Err? <==> exists name :: name in listing && Stray(root, name)
    ensures Sweep(root, listing, now).1.Ok? ==>
              forall name :: name in listing && name in root && root[name].executionId == name ==>
                name in Sweep(root, listing, now).0 && !Unfinished(Sweep(root, listing, now).0[name])
    decreases |listing|
  {
    SweepOnlyInterrupts(root, listing, now);
    if listing != [] {
      var head, tail := listing[0], listing[1..];
      if head !in root || !Unfinished(root[head]) {
        SweepFailsOnStray(root, tail, now);
        SweepOnlyInterrupts(root, tail, now);
      } else {
        InterruptStep(root, head, now);
        match Interrupt(root, root[head].executionId, now)
        case Err(e) =>
          assert head in listing && Stray(root, head);
        case Ok((next, record)) =>
          SweepFailsOnStray(next, tail, now);
          SweepOnlyInterrupts(next, tail, now);
          assert forall name :: name in tail ==> name in listing;
          assert forall name :: name in listing && name != head ==> name in tail;
      }
    }
  }

  /**
   A sweep ends without an exception exactly when no leftover private directory is
   stray. Then it turned exactly the unfinished identities into UNKNOWN and touched
   nothing else.
   */
  lemma RecoveryIsExact(root: Root, listing: seq<string>, now: int)
    requires WellNamed(root) && Lists(listing, root)
    ensures Sweep(root, listing, now).1.Ok? <==> forall name :: name in root ==> !Stray(root, name)
    ensures Sweep(root, listing, now).1.Ok? ==>
              var next := Sweep(root, listing, now).0;
              && next.Keys == root.Keys
              && forall name :: name in root ==>
                   next[name] == if root[name].executionId == name && Unfinished(root[name])
                                 then Updated(root[name], Unknown, None, Some(INTERRUPTED), now)
                                 else root[name]
  {
    SweepFailsOnStray(root, listing, now);
    SweepOnlyInterrupts(root, listing, now);
  }

  /** So without leftovers every sweep completes. */
  lemma RecoveryWithoutLeftovers(root: Root, listing: seq<string>, now: int)
    requires forall name :: name in root ==> root[name].executionId == name
    requires Lists(listing, root)
    ensures Sweep(root, listing, now).1.Ok?
    ensures forall name :: name in root ==>
              name in Sweep(root, listing, now).0 && !Unfinished(Sweep(root, listing, now).0[name])
  {
    RecoveryIsExact(root, listing, now);
  }

  const LEFTOVER := Record("a", Claimed, "i", "c", "x", "y", 1, 1, None, None)
  const INTERRUPTED_RUN := Record("b", Running, "i", "c", "x", "y", 1, 2, None, None)

  /** One crash between building and renaming a claim: the sweep stops there and leaves RUNNING records behind. */
  lemma LeftoverStopsRecovery(now: int)
    ensures var root := map[".a.tmp" := LEFTOVER, "b" := INTERRUPTED_RUN];
            && WellNamed(root) && Lists([".a.tmp", "b"], root)
            && Sweep(root, [".a.tmp", "b"], now) == (root, Err(NotFound))
  {}

  // -------------------------------------------------------- waiting for a winner

  /** What a caller that lost the rename sees each time it polls the record. */
  datatype Poll = Missing | Garbled | Seen(record: Record)

  predicate Inconclusive(p: Poll) {
    p.Missing? || (p.Seen? && !Terminal(p.record.status))
  }

  ghost predicate FirstFinished(polls: seq<Poll>, i: int) {
    && 0 <= i < |polls| && polls[i].Seen? && Terminal(polls[i].record.status)
    && forall j :: 0 <= j < i ==> Inconclusive(polls[j])
  }

  /** The polling loop of `claim`; the polls end where the deadline does. */
  method AwaitTerminal(polls: seq<Poll>) returns (r: Result<Record, Error>)
    ensures r.Ok? ==> exists i :: FirstFinished(polls, i) && polls[i].record == r.value
    ensures r.Err? ==> forall i :: !FirstFinished(polls, i)
    ensures r == Err(TimedOut) <==> forall j :: 0 <= j < |polls| ==> Inconclusive(polls[j])
    ensures r.Err? ==> r.error.TimedOut? || r.error.Unreadable?
  {
    var i := 0;
    while i < |polls|
      invariant 0 <= i <= |polls|
      invariant forall j :: 0 <= j < i ==> Inconclusive(polls[j])
    {
      match polls[i] {
        case Garbled =>
          assert !Inconclusive(polls[i]);
          return Err(Unreadable);
        case Missing =>
        case Seen(record) =>
          if Terminal(record.status) {
            assert !Inconclusive(polls[i]) && FirstFinished(polls, i);
            return Ok(record);
          }
      }
      i := i + 1;
    }
    return Err(TimedOut);
  }

  // ------------------------------------------------------------ the journal

  datatype IdentityClaim = IdentityClaim(claimed: bool, record: Record)

  datatype PermitClaim = PermitClaim(record: Permit, replayed: bool)

  datatype Answer = Answer(result: Option<Output>, record: Record, replayed: bool)

  /** The record that an owner leaves behind, given what the executor did (None: it raised). */
  function Settled(q: Request, now: int, outcome: Option<Output>): Record {
    var running := Updated(FreshRecord(q, now), Running, None, None, now);
    match outcome
    case None => Updated(running, Unknown, None, Some(RAISED), now)
    case Some(o) =>
      if q.Bound? && o.command != CommandOf(q) then Updated(running, Unknown, None, Some(ARGV_BROKEN), now)
      else Updated(running, if o.exitCode == 0 then Succeeded else Failed, Some(Keep(o)), None, now)
  }

  /** What remains of one call of `execute` or `execute_bound`. */
  datatype Outcome = Outcome(permits: map<string, Permit>, root: Root, called: bool, answer: Result<Answer, Error>)

  /** Reading back a record for a request that does not own it. */
  function ReplayOf(record: Record, q: Request): Result<Answer, Error> {
    if Validates(record, q) then Ok(Answer(Rebuild(record.execution), record, true)) else Err(Mismatch)
  }

  /** A replayed permit whose identity has no record; the permits' own directory exists, but holds none. */
  function Unpublished(id: string): Error {
    if id == PERMIT_DIRECTORY then NotFound else PermitWithoutIdentity
  }

  /** The answer where the permit of the run was there already. */
  function FromPermit(root: Root, q: Request): Result<Answer, Error> {
    if ValidateId(RawId(q)).None? then Err(InvalidId)
    else if IdOf(q) !in root then Err(Unpublished(IdOf(q)))
    else ReplayOf(root[IdOf(q)], q)
  }

  /** An owner's call and what it reports. */
  function Owned(permits: map<string, Permit>, root: Root, q: Request, now: int, outcome: Option<Output>): Outcome {
    var settled := Settled(q, now, outcome);
    Outcome(permits, root[IdOf(q) := settled], true,
      if Verdict(settled) then Ok(Answer(outcome, settled, false))
      else if outcome.None? then Err(ExecutorRaised)
      else Err(ResultMismatch))
  }

  /** From the claim of the identity on. */
  function FromClaim(permits: map<string, Permit>, root: Root, q: Request, now: int, outcome: Option<Output>): Outcome {
    if !ClaimOk(q) then Outcome(permits, root, false, Err(BadClaim))
    else if NameTaken(Disk(permits, root, map[]), IdOf(q)) then
      Outcome(permits, root, false,
        if IdOf(q) in root && Terminal(root[IdOf(q)].status) then ReplayOf(root[IdOf(q)], q) else Err(TimedOut))
    else if !Validates(FreshRecord(q, now), q) then
      Outcome(permits, root[IdOf(q) := FreshRecord(q, now)], false, Err(Mismatch))
    else Owned(permits, root, q, now, outcome)
  }

  function Attempt(permits: map<string, Permit>, root: Root, q: Request, now: int, outcome: Option<Output>): Outcome {
    if !Admitted(q) then Outcome(permits, root, false, Err(Denied))
    else if q.Bound? && RunKey(q.effect) in permits then
      Outcome(permits, root, false,
        if permits[RunKey(q.effect)] != PermitOf(q.effect, q.authorization) then Err(PermitConflict) else FromPermit(root, q))
    else
      var after := if q.Bound? then permits[RunKey(q.effect) := PermitOf(q.effect, q.authorization)] else permits;
      FromClaim(after, root, q, now, outcome)
  }

  /** Authorization and decision allow exactly this effect, and its target may be acted on. */
  ghost predicate NamesItsEffect(e: Effect, a: Authorization, d: Decision) {
    && a.allow && d.allow && e.liveEligible && Strip(e.runId) != "" && a.runId == Strip(e.runId)
    && a.incidentId == e.incidentId && a.componentId == e.componentId && a.action == e.action
    && a.executionId == e.executionId && a.permitId == e.permitId
    && a.targetFingerprint == e.targetFingerprint && a.effectFingerprint == e.fingerprint
    && d.componentId == e.componentId && d.action == e.action
  }

  /** Nobody has used the run or the identity yet, and the texts that a record needs are there. */
  ghost predicate Unspent(e: Effect, permits: map<string, Permit>, root: Root) {
    && e.incidentId != "" && e.componentId != "" && Strip(e.action) != ""
    && ValidateId(e.executionId) == Some(e.executionId) && e.executionId != PERMIT_DIRECTORY
    && Strip(e.runId) !in permits && e.executionId !in root
  }

  lemma AuthorizedIsCalled(permits: map<string, Permit>, root: Root, q: Request, now: int, outcome: Option<Output>)
    ensures q.Plain? && !q.decision.allow ==> Attempt(permits, root, q, now, outcome) == Outcome(permits, root, false, Err(Denied))
    ensures q.Bound? && !NamesItsEffect(q.effect, q.authorization, q.decision) ==>
              Attempt(permits, root, q, now, outcome) == Outcome(permits, root, false, Err(Denied))
    ensures q.Bound? && NamesItsEffect(q.effect, q.authorization, q.decision) && Unspent(q.effect, permits, root) ==>
              var a := Attempt(permits, root, q, now, outcome);
              a.called && Strip(q.effect.runId) in a.permits && q.effect.executionId in a.root
  {
    if q.Bound? {
      CommandIsNotBlank(q.effect.argv);
    }
    hide CanonicalJson.Command, ValidateId, Strip, Settled;
  }

  /**
   A permit that is there already, for an identity that is not: it cannot be known whether
   the effect happened, and the call ends with an error of its own. Where the identity has
   the name of the permits' directory, its record is missing from that directory instead.
   */
  lemma PermitWithoutRecord(permits: map<string, Permit>, root: Root, q: Request, now: int, outcome: Option<Output>)
    requires q.Bound? && NamesItsEffect(q.effect, q.authorization, q.decision)
    requires Strip(q.effect.runId) in permits && permits[Strip(q.effect.runId)] == PermitOf(q.effect, q.authorization)
    requires ValidateId(q.effect.executionId).Some? && ValidateId(q.effect.executionId).value !in root
    ensures Attempt(permits, root, q, now, outcome) == Outcome(permits, root, false,
      Err(if ValidateId(q.effect.executionId) == Some("_live_run_permits") then NotFound else PermitWithoutIdentity))
  {
    hide ValidateId, Strip, PermitOf;
  }

  /** The text of an argument vector starts with a bracket. */
  lemma CommandIsNotBlank(argv: seq<string>)
    ensures Strip(CanonicalJson.Command(argv)) != ""
  {
    var text := CanonicalJson.Command(argv);
    assert text != [] && text[0] == '[';
    hide CanonicalJson.Command;
    StripKeepsInk(text, 0);
  }

  /** Stripping never empties a text with something in it that is no blank. */
  lemma {:induction false} StripKeepsInk(s: string, k: nat)
    requires k < |s| && !Blank(s[k])
    ensures Strip(s) != ""
  {
    var i := LeftKeepsInk(s, k);
    RightKeepsInk(StripLeft(s), i);
  }

  lemma {:induction false} LeftKeepsInk(s: string, k: nat) returns (i: nat)
    requires k < |s| && !Blank(s[k])
    ensures i < |StripLeft(s)| && !Blank(StripLeft(s)[i])
  {
    if Blank(s[0]) {
      i := LeftKeepsInk(s[1..], k - 1);
    } else {
      i := k;
    }
  }

  lemma {:induction false} RightKeepsInk(s: string, k: nat)
    requires k < |s| && !Blank(s[k])
    ensures StripRight(s) != ""
  {
    if Blank(s[|s| - 1]) {
      RightKeepsInk(s[..|s| - 1], k);
    }
  }

  /**
   After a call that reported a result, the same request never reaches the executor
   again and is answered with the same record and result, whatever the executor
   would do now, and leaves the disk alone.
   */
  lemma SecondCallReplays(permits: map<string, Permit>, root: Root, q: Request, now: int, outcome: Option<Output>,
                          later: int, other: Option<Output>)
    requires var first := Attempt(permits, root, q, now, outcome);
             first.called && first.answer.Ok?
    ensures var first := Attempt(permits, root, q, now, outcome);
            Attempt(first.permits, first.root, q, later, other)
            == Outcome(first.permits, first.root, false, Ok(Answer(first.answer.value.result, first.answer.value.record, true)))
  {
    assert ClaimOk(q) ==> ValidateId(RawId(q)).Some?;
    hide CommandOf, IdOf, RunKey, PermitOf, ClaimOk, Admitted, Settled, RawId, ValidateId, Rebuild, Keep;
    SettledKeepsIdentity(q, now, outcome);
    RebuildKeep(outcome.value);
  }

  lemma SettledKeepsIdentity(q: Request, now: int, outcome: Option<Output>)
    ensures SameIdentity(FreshRecord(q, now), Settled(q, now, outcome))
    ensures Terminal(Settled(q, now, outcome).status)
    ensures Verdict(Settled(q, now, outcome)) ==> outcome.Some? && Settled(q, now, outcome).execution == Some(Keep(outcome.value))
  {
    hide CommandOf, IdOf, IncidentOf, ComponentOf, ActionOf;
  }

  /**
   And after a call that reached the executor, however it ended, no request for the
   same run or the same execution id reaches it again.
   */
  lemma CalledOnce(permits: map<string, Permit>, root: Root, q: Request, now: int, outcome: Option<Output>,
                   p: Request, later: int, other: Option<Output>)
    requires Attempt(permits, root, q, now, outcome).called
    requires IdOf(p) == IdOf(q) || (p.Bound? && q.Bound? && RunKey(p.effect) == RunKey(q.effect))
    ensures var first := Attempt(permits, root, q, now, outcome);
            !Attempt(first.permits, first.root, p, later, other).called
  {
    hide CommandOf, IdOf, RunKey, PermitOf, ClaimOk, Admitted, Settled, Validates;
  }

  class ExecutionJournal {
    var permits: map<string, Permit>
    var root: Root

    constructor ()
      ensures permits == map[] && root == map[]
    {
      permits, root := map[], map[];
    }

    /** `transition`: the decision of JournalDisk.Transition, on the record under the id. */
    method Move(rawId: string, status: Status, execution: Option<Execution>, reason: Option<string>, now: int)
      returns (r: Result<Record, Error>)
      modifies this`root
      ensures ValidateId(rawId).None? ==> r == Err(InvalidId) && root == old(root)
      ensures ValidateId(rawId).Some? ==>
                var id := ValidateId(rawId).value;
                if id !in old(root) then r == Err(NotFound) && root == old(root)
                else
                  match Transition(old(root)[id], status, execution, reason, now)
                  case Refused =>
                    && root == old(root)
                    && r == Err(if Terminal(old(root)[id].status) then Terminated else BackToClaimed)
                  case Kept(record) => root == old(root) && r == Ok(record)
                  case Write(next) => root == old(root)[id := next] && r == Ok(next)
    {
      if ValidateId(rawId).None? {
        return Err(InvalidId);
      }
      var id := ValidateId(rawId).value;
      if id !in root {
        return Err(NotFound);
      }
      var current := root[id];
      if Terminal(current.status) {
        if current.status != status {
          return Err(Terminated);
        }
        return Ok(current);
      }
      if status == Status.Claimed {
        return Err(BackToClaimed);
      }
      var next := Updated(current, status, execution, reason, now);
      root := root[id := next];
      return Ok(next);
    }

    /** `recover_interrupted`, over any listing of the root. */
    method RecoverInterrupted(listing: seq<string>, now: int) returns (r: Result<seq<Record>, Error>)
      modifies this`root
      ensures (root, r) == Sweep(old(root), listing, now)
    {
      var recovered: seq<Record> := [];
      var i := 0;
      assert listing[0..] == listing;
      assert forall records: seq<Record> :: [] + records == records;
      while i < |listing|
        invariant 0 <= i <= |listing|
        invariant var rest := Sweep(root, listing[i..], now);
                  Sweep(old(root), listing, now)
                  == (rest.0, match rest.1 case Ok(records) => Ok(recovered + records) case Err(e) => Err(e))
      {
        assert listing[i..][1..] == listing[i + 1..];
        var name := listing[i];
        if name in root && Unfinished(root[name]) {
          match Interrupt(root, root[name].executionId, now) {
            case Err(e) =>
              return Err(e);
            case Ok((next, record)) =>
              ghost var rest := Sweep(next, listing[i + 1..], now);
              assert rest.1.Ok? ==> recovered + ([record] + rest.1.value) == (recovered + [record]) + rest.1.value;
              root := next;
              recovered := recovered + [record];
          }
        }
        i := i + 1;
      }
      assert recovered + [] == recovered;
      return Ok(recovered);
    }

    /** `claim_live_run_permit`: the first claim of a run publishes, an equal one replays, any other conflicts. */
    method ClaimLiveRunPermit(e: Effect, a: Authorization) returns (r: Result<PermitClaim, Error>)
      modifies this`permits
      ensures !(a.allow && Matches(a, e) && e.liveEligible && RunKey(e) != "") ==> r == Err(Denied) && permits == old(permits)
      ensures a.allow && Matches(a, e) && e.liveEligible && RunKey(e) != "" ==>
                if RunKey(e) !in old(permits) then
                  r == Ok(PermitClaim(PermitOf(e, a), false)) && permits == old(permits)[RunKey(e) := PermitOf(e, a)]
                else
                  && permits == old(permits)
                  && r == if permits[RunKey(e)] == PermitOf(e, a) then Ok(PermitClaim(PermitOf(e, a), true)) else Err(PermitConflict)
    {
      if !a.allow || !Matches(a, e) || !e.liveEligible || RunKey(e) == "" {
        return Err(Denied);
      }
      var permit := PermitOf(e, a);
      if RunKey(e) in permits {
        if permits[RunKey(e)] != permit {
          return Err(PermitConflict);
        }
        return Ok(PermitClaim(permits[RunKey(e)], true));
      }
      permits := permits[RunKey(e) := permit];
      return Ok(PermitClaim(permit, false));
    }

    /** `claim` when nobody else is at work: a taken identity is replayed if it is finished; the permits' directory never is. */
    method Claim(q: Request, now: int) returns (r: Result<IdentityClaim, Error>)
      modifies this`root
      ensures !ClaimOk(q) ==> r == Err(BadClaim) && root == old(root)
      ensures ClaimOk(q) && !NameTaken(Disk(permits, old(root), map[]), IdOf(q)) ==>
                r == Ok(IdentityClaim(true, FreshRecord(q, now))) && root == old(root)[IdOf(q) := FreshRecord(q, now)]
      ensures ClaimOk(q) && NameTaken(Disk(permits, old(root), map[]), IdOf(q)) ==>
                && root == old(root)
                && r == if IdOf(q) in root && Terminal(root[IdOf(q)].status) then Ok(IdentityClaim(false, root[IdOf(q)])) else Err(TimedOut)
    {
      if !ClaimOk(q) {
        return Err(BadClaim);
      }
      if NameTaken(Disk(permits, root, map[]), IdOf(q)) {
        var polls := [if IdOf(q) in root then Seen(root[IdOf(q)]) else Missing];
        var waited := AwaitTerminal(polls);
        assert FirstFinished(polls, 0) <==> IdOf(q) in root && Terminal(root[IdOf(q)].status);
        assert Inconclusive(polls[0]) <==> !(IdOf(q) in root && Terminal(root[IdOf(q)].status));
        match waited {
          case Ok(record) => return Ok(IdentityClaim(false, record));
          case Err(e) => return Err(e);
        }
      }
      root := root[IdOf(q) := FreshRecord(q, now)];
      return Ok(IdentityClaim(true, FreshRecord(q, now)));
    }

    /** The outcome of an owner's gate call, recorded: three transitions of its own identity in a row. */
    method RunOwned(q: Request, now: int, outcome: Option<Output>) returns (r: Result<Answer, Error>)
      requires ValidateId(RawId(q)).Some? && IdOf(q) in root && root[IdOf(q)] == FreshRecord(q, now)
      modifies this`root
      ensures root == old(root)[IdOf(q) := Settled(q, now, outcome)]
      ensures r == if Verdict(Settled(q, now, outcome)) then Ok(Answer(outcome, Settled(q, now, outcome), false))
                   else Err(if outcome.None? then ExecutorRaised else ResultMismatch)
    {
      hide CommandOf, IncidentOf, ComponentOf, ActionOf, RawId;
      var running := Move(RawId(q), Running, None, None, now);
      if outcome.None? {
        var unknown := Move(RawId(q), Unknown, None, Some(RAISED), now);
        return Err(ExecutorRaised);
      }
      var o := outcome.value;
      if q.Bound? && o.command != CommandOf(q) {
        var unknown := Move(RawId(q), Unknown, None, Some(ARGV_BROKEN), now);
        return Err(ResultMismatch);
      }
      var settled := Move(RawId(q), if o.exitCode == 0 then Succeeded else Failed, Some(Keep(o)), None, now);
      return Ok(Answer(outcome, settled.value, false));
    }

    /** `execute` and `execute_bound`, with the executor's behaviour as a parameter. */
    method Execute(q: Request, now: int, outcome: Option<Output>) returns (r: Result<Answer, Error>, called: bool)
      modifies this
      ensures Outcome(permits, root, called, r) == Attempt(old(permits), old(root), q, now, outcome)
      // a bound request that misses one of the comparisons leaves no trace
      ensures q.Bound? && !NamesItsEffect(q.effect, q.authorization, q.decision) ==>
                r == Err(Denied) && !called && permits == old(permits) && root == old(root)
      // one that meets them all, for a run and an identity of its own, is carried out
      ensures q.Bound? && NamesItsEffect(q.effect, q.authorization, q.decision) && Unspent(q.effect, old(permits), old(root)) ==>
                called && Strip(q.effect.runId) in permits && q.effect.executionId in root
      ensures q.Plain? && !q.decision.allow ==> r == Err(Denied) && !called && permits == old(permits) && root == old(root)
    {
      AuthorizedIsCalled(permits, root, q, now, outcome);
      hide NamesItsEffect, Unspent, Attempt;
      r, called := Carry(q, now, outcome);
    }

    method Carry(q: Request, now: int, outcome: Option<Output>) returns (r: Result<Answer, Error>, called: bool)
      modifies this
      ensures Outcome(permits, root, called, r) == Attempt(old(permits), old(root), q, now, outcome)
    {
      hide CommandOf, IncidentOf, ComponentOf, ActionOf, Settled, PermitOf, FreshRecord, RunKey, FromClaim, Owned;
      called := false;
      if !Admitted(q) {
        return Err(Denied), false;
      }
      if q.Bound? {
        var claim := ClaimLiveRunPermit(q.effect, q.authorization);
        if claim.Err? {
          return Err(claim.error), false;
        }
        if claim.value.replayed {
          if ValidateId(RawId(q)).None? {
            return Err(InvalidId), false;
          }
          if IdOf(q) !in root {
            return Err(Unpublished(IdOf(q))), false;
          }
          return ReplayOf(root[IdOf(q)], q), false;
        }
      }
      r, called := CarryOn(q, now, outcome);
    }

    /** From the claim of the identity on. */
    method CarryOn(q: Request, now: int, outcome: Option<Output>) returns (r: Result<Answer, Error>, called: bool)
      modifies this`root
      ensures Outcome(permits, root, called, r) == FromClaim(permits, old(root), q, now, outcome)
    {
      hide CommandOf, IncidentOf, ComponentOf, ActionOf, Settled, FreshRecord;
      var identity := Claim(q, now);
      if identity.Err? {
        return Err(identity.error), false;
      }
      if !identity.value.claimed {
        return ReplayOf(identity.value.record, q), false;
      }
      if !Validates(identity.value.record, q) {
        return Err(Mismatch), false;
      }
      r := RunOwned(q, now, outcome);
      called := true;
    }
  }
}
