/**
 What a reservation without a complete record does to a ledger. Left behind by a
 caller that is gone, it stops every later call for good; and nothing else does.
 */
module ApprovalPoison {
  import opened Values
  import opened CanonicalJson
  import opened ApprovalLedger
  import opened ApprovalLedgerProofs

  /** Its owner is gone and its record is not complete. */
  ghost predicate Abandoned(h: string -> string, s: Store, name: string) {
    && name in s.files && name in s.reservedBy && s.reservedBy[name] in s.callers
    && s.callers[s.reservedBy[name]].phase.Crashed?
    && !Complete(h, s.kind, name, s.files[name])
  }

  /** A caller that never gets past the file of that name. */
  predicate Stuck(p: Phase, name: string) {
    p.Arrived? || p.Refused? || p.Crashed? || (p.Reading? && name in p.unread)
  }

  ghost predicate Blocks(h: string -> string, s: Store, name: string, earlier: set<nat>) {
    && Abandoned(h, s, name)
    && forall c :: c in s.callers && c !in earlier ==> Stuck(s.callers[c].phase, name)
  }

  lemma StepKeepsBlocking(h: string -> string, s: Store, step: Step, name: string, earlier: set<nat>)
    requires Inv(h, s) && Blocks(h, s, name, earlier) && Enabled(h, s, step)
    ensures Blocks(h, Do(h, s, step), name, earlier)
  {
    hide Body, Valid, NameOf, Complete, Reads, FoundOk;
    if step.Fill? {
      assert CallerOk(h, s, step.c);
    } else if step.Crash? {
      hide CallerOk, FileOk;
    }
  }

  /**
   After a crash between the reservation and a complete record, no call that
   starts later ever gets an answer: not a grant or a consumption, nor a listing
   of the records. This holds in every continuation.
   */
  lemma {:induction false} AbandonedReservationStopsEveryone(
      h: string -> string, s: Store, steps: seq<Step>, name: string, earlier: set<nat>)
    requires Inv(h, s) && Blocks(h, s, name, earlier) && Runs(h, s, steps)
    ensures Blocks(h, After(h, s, steps), name, earlier)
    decreases |steps|
  {
    hide Inv, Enabled, Do, Blocks;
    if steps != [] {
      StepKeeps(h, s, steps[0]);
      StepKeepsBlocking(h, s, steps[0], name, earlier);
      AbandonedReservationStopsEveryone(h, Do(h, s, steps[0]), steps[1..], name, earlier);
    }
  }

  /** The crash that leaves it: anywhere from the empty file up to the last character but one. */
  lemma CrashAbandons(h: string -> string, s: Store, c: nat)
    requires Inv(h, s) && c in s.callers && s.callers[c].phase.Filling?
    ensures Abandoned(h, Do(h, s, Crash(c)), NameOf(h, s.callers[c].job.entry))
  {
    hide Body, Valid, NameOf, Complete, FoundOk;
    assert CallerOk(h, s, c);
    var e := s.callers[c].job.entry;
    assert FileOk(h, s, NameOf(h, e));
    ProperPartIsIncomplete(h, s.kind, NameOf(h, e), e, s.files[NameOf(h, e)]);
  }

  // ------------------------------------------------------ nothing else does

  lemma {:induction false} RunsConcat(h: string -> string, s: Store, a: seq<Step>, b: seq<Step>)
    requires Runs(h, s, a) && Runs(h, After(h, s, a), b)
    ensures Runs(h, s, a + b) && After(h, s, a + b) == After(h, After(h, s, a), b)
    decreases |a|
  {
    hide Enabled, Do;
    if a == [] {
      assert a + b == b;
    } else {
      assert (a + b)[0] == a[0] && (a + b)[1..] == a[1..] + b;
      RunsConcat(h, Do(h, s, a[0]), a[1..], b);
    }
  }

  ghost function Incomplete(h: string -> string, s: Store): set<string> {
    set name | name in s.files && !Complete(h, s.kind, name, s.files[name])
  }

  /** A reservation whose owner is still there can be completed by it. */
  lemma FillOne(h: string -> string, s: Store, name: string) returns (step: Step)
    requires Inv(h, s) && name in Incomplete(h, s) && !Abandoned(h, s, name)
    ensures Enabled(h, s, step) && Inv(h, Do(h, s, step)) && Grows(h, s, Do(h, s, step))
    ensures Incomplete(h, Do(h, s, step)) == Incomplete(h, s) - {name}
    ensures forall other :: Abandoned(h, Do(h, s, step), other) ==> Abandoned(h, s, other)
    ensures Do(h, s, step).callers.Keys == s.callers.Keys
  {
    hide Body, NameOf, Valid, FoundOk;
    var c := s.reservedBy[name];
    assert FileOk(h, s, name) && CallerOk(h, s, c);
    var e := s.callers[c].job.entry;
    assert Reads(h, s.kind, name, Body(e), e);
    assert Complete(h, s.kind, name, Body(e));
    step := Fill(c, |Body(e)|);
    FillingLeavesRoom(h, s, name);
    assert Body(e)[..|Body(e)|] == Body(e);
    hide Complete, Reads;
    StepKeeps(h, s, step);
  }

  lemma FillingLeavesRoom(h: string -> string, s: Store, name: string)
    requires name in s.files && name in s.reservedBy && FileOk(h, s, name)
    requires s.callers[s.reservedBy[name]].phase.Filling?
    ensures |s.files[name]| < |Body(s.callers[s.reservedBy[name]].job.entry)|
  {
    hide Body, NameOf, Valid;
    var part, whole := s.files[name], Body(s.callers[s.reservedBy[name]].job.entry);
    assert part == whole[..|part|] && whole == whole[..|whole|];
  }

  lemma {:induction false} FinishAll(h: string -> string, s: Store) returns (steps: seq<Step>)
    requires Inv(h, s) && forall name :: !Abandoned(h, s, name)
    ensures Runs(h, s, steps) && Inv(h, After(h, s, steps))
    ensures Incomplete(h, After(h, s, steps)) == {}
    ensures After(h, s, steps).callers.Keys == s.callers.Keys
    decreases |Incomplete(h, s)|
  {
    hide Inv, Enabled, Do, Incomplete, Abandoned, Grows;
    if Incomplete(h, s) == {} {
      steps := [];
    } else {
      var name :| name in Incomplete(h, s);
      var step := FillOne(h, s, name);
      var rest := FinishAll(h, Do(h, s, step));
      steps := [step] + rest;
      assert steps[0] == step && steps[1..] == rest;
    }
  }

  lemma ReadOne(h: string -> string, s: Store, c: nat, name: string)
    requires Inv(h, s) && Incomplete(h, s) == {}
    requires c in s.callers && s.callers[c].job.List? && s.callers[c].phase.Reading? && name in s.callers[c].phase.unread
    ensures Enabled(h, s, ReadFile(c, name))
    ensures var t := Do(h, s, ReadFile(c, name));
            && Inv(h, t) && Incomplete(h, t) == {} && c in t.callers && t.callers[c].job.List?
            && t.callers[c].phase.Reading? && t.callers[c].phase.unread == s.callers[c].phase.unread - {name}
  {
    hide Body, NameOf, Valid, Reads, FoundOk;
    assert CallerOk(h, s, c);
    assert name !in Incomplete(h, s);
    assert Complete(h, s.kind, name, s.files[name]);
    StepKeeps(h, s, ReadFile(c, name));
  }

  lemma LastStep(h: string -> string, s: Store, c: nat)
    requires c in s.callers && s.callers[c].job.List? && s.callers[c].phase.Reading? && s.callers[c].phase.unread == {}
    ensures Enabled(h, s, EndScan(c))
    ensures Runs(h, s, [EndScan(c)])
    ensures var t := After(h, s, [EndScan(c)]); c in t.callers && t.callers[c].phase.Listed?
  {
    var t := Do(h, s, EndScan(c));
    assert c in t.callers && t.callers[c].phase.Listed?;
    Prepend(h, s, EndScan(c), []);
    assert [EndScan(c)] + [] == [EndScan(c)];
  }

  lemma Prepend(h: string -> string, s: Store, step: Step, rest: seq<Step>)
    requires Enabled(h, s, step) && Runs(h, Do(h, s, step), rest)
    ensures Runs(h, s, [step] + rest) && After(h, s, [step] + rest) == After(h, Do(h, s, step), rest)
  {
    hide Enabled, Do;
    assert ([step] + rest)[1..] == rest;
  }

  lemma {:induction false} ReadAll(h: string -> string, s: Store, c: nat) returns (steps: seq<Step>)
    requires Inv(h, s) && Incomplete(h, s) == {}
    requires c in s.callers && s.callers[c].job.List? && s.callers[c].phase.Reading?
    ensures Runs(h, s, steps) && c in After(h, s, steps).callers && After(h, s, steps).callers[c].phase.Listed?
    decreases |s.callers[c].phase.unread|
  {
    var unread := s.callers[c].phase.unread;
    hide Inv, Incomplete, Enabled, Do, Runs, After;
    if unread == {} {
      LastStep(h, s, c);
      steps := [EndScan(c)];
    } else {
      var name :| name in unread;
      ReadOne(h, s, c, name);
      var rest := ReadAll(h, Do(h, s, ReadFile(c, name)), c);
      steps := [ReadFile(c, name)] + rest;
      Prepend(h, s, ReadFile(c, name), rest);
    }
  }

  ghost predicate Answers(h: string -> string, s: Store, steps: seq<Step>, c: nat) {
    && Runs(h, s, steps) && c !in s.callers && c in After(h, s, steps).callers
    && After(h, s, steps).callers[c].phase.Listed?
  }

  /** Some call that starts later can still get an answer. */
  ghost predicate Usable(h: string -> string, s: Store) {
    exists steps, c :: Answers(h, s, steps, c)
  }

  lemma StartListing(h: string -> string, s: Store, c: nat) returns (steps: seq<Step>)
    requires Inv(h, s) && Incomplete(h, s) == {} && c !in s.callers
    ensures Runs(h, s, steps) && Inv(h, After(h, s, steps)) && Incomplete(h, After(h, s, steps)) == {}
    ensures c in After(h, s, steps).callers
    ensures After(h, s, steps).callers[c].job.List? && After(h, s, steps).callers[c].phase.Reading?
  {
    hide Body, NameOf, Valid, Reads, FileOk, CallerOk, Complete;
    steps := [Arrive(c, List), TakeListing(c)];
    var t := Do(h, s, steps[0]);
    StepKeeps(h, s, steps[0]);
    StepKeeps(h, t, steps[1]);
    assert Runs(h, Do(h, t, steps[1]), []) && steps[1..] == [TakeListing(c)] && steps[1..][1..] == [];
    assert Runs(h, t, steps[1..]);
    assert After(h, s, steps) == After(h, t, steps[1..]) == Do(h, t, steps[1]);
  }

  lemma UsableWithoutAbandoned(h: string -> string, s: Store)
    requires Inv(h, s) && forall name :: !Abandoned(h, s, name)
    ensures Usable(h, s)
  {
    hide Inv, Enabled, Do, Incomplete, Abandoned;
    var finish := FinishAll(h, s);
    var t := After(h, s, finish);
    var c := Above(s.callers.Keys);
    var start := StartListing(h, t, c);
    var u := After(h, t, start);
    var read := ReadAll(h, u, c);
    RunsConcat(h, t, start, read);
    RunsConcat(h, s, finish, start + read);
    assert Answers(h, s, finish + (start + read), c);
  }

  /** A ledger can still be used if and only if no reservation in it is abandoned. */
  lemma UsableExactlyWhenNothingAbandoned(h: string -> string, s: Store)
    requires Inv(h, s)
    ensures Usable(h, s) <==> forall name :: !Abandoned(h, s, name)
  {
    hide Inv, Abandoned, Runs, After;
    if name :| Abandoned(h, s, name) {
      forall steps, c ensures !Answers(h, s, steps, c) {
        if Answers(h, s, steps, c) {
          assert Blocks(h, s, name, s.callers.Keys);
          AbandonedReservationStopsEveryone(h, s, steps, name, s.callers.Keys);
          assert Stuck(After(h, s, steps).callers[c].phase, name);
        }
      }
    } else {
      UsableWithoutAbandoned(h, s);
    }
  }
}
