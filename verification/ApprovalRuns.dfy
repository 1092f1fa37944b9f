/** What one issuance or consumption comes to when nobody comes between, in any reachable ledger that is still usable. */
module ApprovalRuns {
  import opened Values
  import opened CanonicalJson
  import opened ApprovalLedger
  import opened ApprovalLedgerProofs
  import opened ApprovalPoison

  ghost predicate Sound(h: string -> string, s: Store) {
    Inv(h, s) && Incomplete(h, s) == {}
  }

  /** Nothing but the caller's phase has changed. */
  ghost predicate OnlyMoved(s: Store, t: Store, c: nat) {
    && t.kind == s.kind && t.files == s.files && t.reservedBy == s.reservedBy
    && c in s.callers && c in t.callers && t.callers[c].job == s.callers[c].job
  }

  lemma StaysUsable(h: string -> string, s: Store, step: Step)
    requires Sound(h, s) && Enabled(h, s, step) && Do(h, s, step).files == s.files && Do(h, s, step).kind == s.kind
    ensures Sound(h, Do(h, s, step))
  {
    hide Enabled, Do, Inv, Complete;
    StepKeeps(h, s, step);
  }

  lemma ReadsOne(h: string -> string, s: Store, c: nat, name: string)
    requires Sound(h, s) && c in s.callers && s.callers[c].phase.Reading? && name in s.callers[c].phase.unread
    ensures Enabled(h, s, ReadFile(c, name))
    ensures var t := Do(h, s, ReadFile(c, name));
            && Sound(h, t) && OnlyMoved(s, t, c) && t.callers[c].phase.Reading?
            && t.callers[c].phase.unread == s.callers[c].phase.unread - {name}
            && t.callers[c].phase.scans == s.callers[c].phase.scans
  {
    hide Body, NameOf, Valid, Reads, FoundOk, FileOk;
    assert CallerOk(h, s, c);
    assert name !in Incomplete(h, s);
    assert Complete(h, s.kind, name, s.files[name]);
    StaysUsable(h, s, ReadFile(c, name));
  }

  /** Reads all that was listed. */
  lemma {:induction false} ScanAll(h: string -> string, s: Store, c: nat) returns (steps: seq<Step>)
    requires Sound(h, s) && c in s.callers && s.callers[c].phase.Reading?
    ensures Runs(h, s, steps)
    ensures var t := After(h, s, steps);
            && Sound(h, t) && OnlyMoved(s, t, c) && t.callers[c].phase.Reading?
            && t.callers[c].phase.unread == {} && t.callers[c].phase.scans == s.callers[c].phase.scans
    ensures forall step :: step in steps ==> step.ReadFile?
    decreases |s.callers[c].phase.unread|
  {
    hide Sound, Enabled, Do;
    if s.callers[c].phase.unread == {} {
      steps := [];
    } else {
      var name :| name in s.callers[c].phase.unread;
      ReadsOne(h, s, c, name);
      var rest := ScanAll(h, Do(h, s, ReadFile(c, name)), c);
      steps := [ReadFile(c, name)] + rest;
      Prepend(h, s, ReadFile(c, name), rest);
    }
  }

  /** One scan, from the listing to its end. */
  lemma ScanOnce(h: string -> string, s: Store, c: nat) returns (steps: seq<Step>)
    requires Sound(h, s) && c in s.callers && s.callers[c].phase.Arrived?
    ensures Runs(h, s, steps)
    ensures var t := After(h, s, steps);
            && Sound(h, t) && OnlyMoved(s, t, c) && t.callers[c].phase.Reading?
            && t.callers[c].phase.unread == {} && t.callers[c].phase.scans == s.callers[c].phase.scans
    ensures Listings(steps) == 1
  {
    assert Enabled(h, s, TakeListing(c));
    StaysUsable(h, s, TakeListing(c));
    var t := Do(h, s, TakeListing(c));
    assert OnlyMoved(s, t, c);
    hide Sound, Enabled, Do;
    var rest := ScanAll(h, t, c);
    steps := [TakeListing(c)] + rest;
    Prepend(h, s, TakeListing(c), rest);
    NoListing(rest);
    assert steps[1..] == rest;
  }

  /** How often a run takes a listing of the directory. */
  function Listings(steps: seq<Step>): nat {
    if steps == [] then 0 else (if steps[0].TakeListing? then 1 else 0) + Listings(steps[1..])
  }

  lemma {:induction false} NoListing(steps: seq<Step>)
    requires forall step :: step in steps ==> step.ReadFile?
    ensures Listings(steps) == 0
  {
    if steps != [] {
      assert steps[0] in steps && forall step :: step in steps[1..] ==> step in steps;
      NoListing(steps[1..]);
    }
  }

  lemma {:induction false} ListingsAdd(a: seq<Step>, b: seq<Step>)
    ensures Listings(a + b) == Listings(a) + Listings(b)
  {
    if a == [] {
      assert a + b == b;
    } else {
      ListingsAdd(a[1..], b);
      assert (a + b)[1..] == a[1..] + b;
    }
  }

  /** Where the scan has found no record of the activation. */
  lemma NotFound(h: string -> string, s: Store, c: nat, e: Entry)
    requires Sound(h, s) && c in s.callers && s.callers[c].phase.Reading? && s.callers[c].job == Add(e)
    requires NameOf(h, e) !in s.files && s.kind.Activations?
    ensures forall f :: f in s.callers[c].phase.found ==> f.activationId != e.activationId
  {
    hide Body, Valid, FileOk;
    assert CallerOk(h, s, c);
  }

  /** Through all its scans, to the point of reserving. */
  lemma ScansThrough(h: string -> string, s: Store, c: nat, e: Entry) returns (steps: seq<Step>)
    requires Sound(h, s) && c !in s.callers && Valid(e) && e.Grant? == s.kind.Approvals?
    requires e.Grant? || NameOf(h, e) !in s.files
    ensures Runs(h, s, steps)
    ensures var t := After(h, s, steps);
            && Sound(h, t) && t.files == s.files && t.kind == s.kind && t.reservedBy == s.reservedBy
            && c in t.callers && t.callers[c] == Caller(Add(e), Reserving)
    ensures Listings(steps) == if e.Grant? then 1 else 2
  {
    hide Valid, Body, NameOf, Inv, Complete;
    assert Enabled(h, s, Arrive(c, Add(e)));
    StaysUsable(h, s, Arrive(c, Add(e)));
    var s1 := Do(h, s, Arrive(c, Add(e)));
    assert s1.callers[c].phase == Arrived(if e.Grant? then 1 else 2);
    var first := ScanOnce(h, s1, c);
    var s2 := After(h, s1, first);
    if e.Consumption? {
      NotFound(h, s2, c, e);
    }
    StaysUsable(h, s2, EndScan(c));
    var s3 := Do(h, s2, EndScan(c));
    Prepend(h, s2, EndScan(c), []);
    assert [EndScan(c)] + [] == [EndScan(c)];
    RunsConcat(h, s1, first, [EndScan(c)]);
    ListingsAdd(first, [EndScan(c)]);
    assert Listings([EndScan(c)]) == 0;
    var all := first + [EndScan(c)];
    if e.Consumption? {
      assert s3.callers[c].phase == Arrived(1);
      var second := ScanOnce(h, s3, c);
      var s4 := After(h, s3, second);
      StaysUsable(h, s4, EndScan(c));
      Prepend(h, s4, EndScan(c), []);
      RunsConcat(h, s3, second, [EndScan(c)]);
      RunsConcat(h, s1, all, second + [EndScan(c)]);
      ListingsAdd(second, [EndScan(c)]);
      ListingsAdd(all, second + [EndScan(c)]);
      all := all + (second + [EndScan(c)]);
    }
    hide Do, Enabled;
    steps := [Arrive(c, Add(e))] + all;
    Prepend(h, s, Arrive(c, Add(e)), all);
    assert steps[1..] == all;
  }

  /** Reserve, fill, return. */
  lemma Writes(h: string -> string, s: Store, c: nat, e: Entry)
    requires c in s.callers && s.callers[c] == Caller(Add(e), Reserving) && NameOf(h, e) !in s.files
    ensures var steps := [Reserve(c), Fill(c, |Body(e)|), Return(c)];
            && Runs(h, s, steps)
            && var t := After(h, s, steps);
               t.files == s.files[NameOf(h, e) := Body(e)] && c in t.callers && t.callers[c].phase == Added
  {
    BodyIsText(e);
    hide Body, NameOf;
    var s1 := Do(h, s, Reserve(c));
    assert Body(e)[..|Body(e)|] == Body(e);
    var s2 := Do(h, s1, Fill(c, |Body(e)|));
    var s3 := Do(h, s2, Return(c));
    Prepend(h, s2, Return(c), []);
    assert [Return(c)] + [] == [Return(c)];
    Prepend(h, s1, Fill(c, |Body(e)|), [Return(c)]);
    assert [Fill(c, |Body(e)|)] + [Return(c)] == [Fill(c, |Body(e)|), Return(c)];
    Prepend(h, s, Reserve(c), [Fill(c, |Body(e)|), Return(c)]);
    assert [Reserve(c)] + [Fill(c, |Body(e)|), Return(c)] == [Reserve(c), Fill(c, |Body(e)|), Return(c)];
    assert s2.files == s.files[NameOf(h, e) := Body(e)];
  }

  lemma NoListingInThree(a: Step, b: Step, d: Step)
    requires !a.TakeListing? && !b.TakeListing? && !d.TakeListing?
    ensures Listings([a, b, d]) == 0
  {
    assert [a, b, d][1..] == [b, d] && [b, d][1..] == [d];
    assert Listings([d]) == 0;
    assert Listings([b, d]) == 0;
  }

  lemma BodyIsText(e: Entry)
    ensures |Body(e)| > 0
  {
    hide EncodeFields;
  }

  /**
   A new record goes into a usable ledger: an issuance after one scan of the directory,
   a consumption after two. Its file then holds the whole record, and nothing else changed.
   */
  lemma NewRecordGoesIn(h: string -> string, s: Store, c: nat, e: Entry) returns (steps: seq<Step>)
    requires Inv(h, s) && Incomplete(h, s) == {} && c !in s.callers
    requires Valid(e) && e.Grant? == s.kind.Approvals? && NameOf(h, e) !in s.files
    ensures Runs(h, s, steps)
    ensures var t := After(h, s, steps);
            t.files == s.files[NameOf(h, e) := Body(e)] && c in t.callers && t.callers[c].phase == Added
    ensures Listings(steps) == if e.Grant? then 1 else 2
  {
    var scans := ScansThrough(h, s, c, e);
    var t := After(h, s, scans);
    Writes(h, t, c, e);
    hide Do, Enabled, Body, NameOf, Sound, Incomplete, Inv, Valid;
    var last := [Reserve(c), Fill(c, |Body(e)|), Return(c)];
    RunsConcat(h, s, scans, last);
    ListingsAdd(scans, last);
    NoListingInThree(Reserve(c), Fill(c, |Body(e)|), Return(c));
    steps := scans + last;
  }

  lemma ReservingFails(h: string -> string, s: Store, c: nat, e: Entry)
    requires c in s.callers && s.callers[c] == Caller(Add(e), Reserving) && NameOf(h, e) in s.files
    ensures Enabled(h, s, Reserve(c))
    ensures var t := Do(h, s, Reserve(c)); t.files == s.files && c in t.callers && t.callers[c].phase == Refused
  {
    hide NameOf, Body;
  }

  /** An approval whose key is taken is refused at the reservation, and nothing changes. */
  lemma TakenApprovalIsRefused(h: string -> string, s: Store, c: nat, e: Entry) returns (steps: seq<Step>)
    requires Inv(h, s) && Incomplete(h, s) == {} && c !in s.callers && s.kind.Approvals?
    requires Valid(e) && e.Grant? && NameOf(h, e) in s.files
    ensures Runs(h, s, steps)
    ensures var t := After(h, s, steps); t.files == s.files && c in t.callers && t.callers[c].phase == Refused
  {
    var scans := ScansThrough(h, s, c, e);
    var t := After(h, s, scans);
    hide Body, NameOf, Sound, Incomplete, Inv, Valid;
    ReservingFails(h, t, c, e);
    hide Do, Enabled;
    Prepend(h, t, Reserve(c), []);
    assert [Reserve(c)] + [] == [Reserve(c)];
    RunsConcat(h, s, scans, [Reserve(c)]);
    steps := scans + [Reserve(c)];
  }
}
