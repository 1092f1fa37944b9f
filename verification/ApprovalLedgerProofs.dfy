/** One winner per key, records that last, and reservations that block for good. */
module ApprovalLedgerProofs {
  import opened Values
  import opened CanonicalJson
  import opened ApprovalLedger

  // --------------------------------------------------------------- invariant

  predicate Holding(p: Phase) {
    p.Filling? || p.Written? || p.Added?
  }

  predicate JobOk(s: Store, job: Job) {
    job.Add? ==> Valid(job.entry) && job.entry.Grant? == s.kind.Approvals?
  }

  /** The file of a reservation holds as much of its owner's record as the owner has written. */
  ghost predicate FileOk(h: string -> string, s: Store, name: string)
    requires name in s.files && name in s.reservedBy
  {
    var c := s.reservedBy[name];
    && Adds(s, c)
    && NameOf(h, s.callers[c].job.entry) == name
    && s.files[name] <= Body(s.callers[c].job.entry)
    && (Holding(s.callers[c].phase) || s.callers[c].phase.Crashed?)
    && (s.callers[c].phase.Filling? ==> s.files[name] != Body(s.callers[c].job.entry))
    && (s.callers[c].phase.Written? || s.callers[c].phase.Added? ==> s.files[name] == Body(s.callers[c].job.entry))
  }

  ghost predicate FoundOk(h: string -> string, s: Store, found: set<Entry>) {
    forall e :: e in found ==>
      NameOf(h, e) in s.files && Reads(h, s.kind, NameOf(h, e), s.files[NameOf(h, e)], e)
  }

  ghost predicate CallerOk(h: string -> string, s: Store, c: nat)
    requires c in s.callers
  {
    var q := s.callers[c];
    && JobOk(s, q.job)
    && (Holding(q.phase) ==>
          q.job.Add? && NameOf(h, q.job.entry) in s.reservedBy && s.reservedBy[NameOf(h, q.job.entry)] == c)
    && (q.phase.Reserving? ==> q.job.Add?)
    && (q.phase.Reading? ==> q.phase.unread <= s.files.Keys && FoundOk(h, s, q.phase.found))
    && (q.phase.Listed? ==> FoundOk(h, s, q.phase.found))
  }

  ghost predicate Inv(h: string -> string, s: Store) {
    && s.files.Keys == s.reservedBy.Keys
    && (forall name :: name in s.files ==> FileOk(h, s, name))
    && (forall c :: c in s.callers ==> CallerOk(h, s, c))
  }

  lemma InitHolds(h: string -> string, kind: Kind)
    ensures Inv(h, Init(kind))
  {}

  // ------------------------------------------------------------------ growth

  /** Nothing disappears, files only grow, and a complete record never changes. */
  ghost predicate Grows(h: string -> string, s: Store, t: Store) {
    && t.kind == s.kind
    && (forall name :: name in s.files ==>
          && name in t.files && s.files[name] <= t.files[name]
          && (Complete(h, s.kind, name, s.files[name]) ==> t.files[name] == s.files[name]))
    && (forall name :: name in s.reservedBy ==> name in t.reservedBy && t.reservedBy[name] == s.reservedBy[name])
    && (forall c :: c in s.callers ==> c in t.callers && t.callers[c].job == s.callers[c].job)
  }

  /** Only caller c moved, and no file did. */
  ghost predicate OnlyMoved(s: Store, t: Store, c: nat) {
    && t.kind == s.kind && t.files == s.files && t.reservedBy == s.reservedBy
    && c in t.callers
    && (c in s.callers ==> t.callers[c].job == s.callers[c].job)
    && forall d :: d != c ==> (d in t.callers <==> d in s.callers) && (d in s.callers ==> t.callers[d] == s.callers[d])
  }

  lemma MovesKeep(h: string -> string, s: Store, t: Store, c: nat)
    requires Inv(h, s) && OnlyMoved(s, t, c) && CallerOk(h, t, c)
    requires c in s.callers ==>
      !Holding(s.callers[c].phase) || t.callers[c].phase.Crashed?
      || (s.callers[c].phase.Written? && t.callers[c].phase.Added?)
    requires c in s.callers ==> !s.callers[c].phase.Crashed?
    ensures Inv(h, t) && Grows(h, s, t)
  {
    hide Body, NameOf, Valid, Reads, Complete;
    forall name | name in t.files ensures FileOk(h, t, name) {
      assert FileOk(h, s, name);
    }
    forall d | d in t.callers && d != c ensures CallerOk(h, t, d) {
      assert CallerOk(h, s, d);
    }
  }

  lemma ReserveKeepsFiles(h: string -> string, s: Store, c: nat)
    requires Inv(h, s) && Enabled(h, s, Reserve(c)) && NameOf(h, s.callers[c].job.entry) !in s.files
    ensures var t := DoReserve(h, s, c);
            t.files.Keys == t.reservedBy.Keys && forall name :: name in t.files ==> FileOk(h, t, name)
  {
    hide NameOf, Valid, Reads, Complete, Body, FoundOk;
    var t, e := DoReserve(h, s, c), s.callers[c].job.entry;
    BodyIsNotEmpty(e);
    forall name | name in t.files ensures FileOk(h, t, name) {
      if name == NameOf(h, e) {
        assert "" <= Body(e);
      } else {
        assert FileOk(h, s, name);
      }
    }
  }

  lemma ReserveKeepsCallers(h: string -> string, s: Store, c: nat, d: nat)
    requires Inv(h, s) && Enabled(h, s, Reserve(c)) && NameOf(h, s.callers[c].job.entry) !in s.files
    requires d in DoReserve(h, s, c).callers
    ensures CallerOk(h, DoReserve(h, s, c), d)
  {
    hide NameOf, Valid, Reads, Complete, Body, FileOk;
    assert CallerOk(h, s, d);
  }

  lemma ReserveKeeps(h: string -> string, s: Store, c: nat)
    requires Inv(h, s) && Enabled(h, s, Reserve(c))
    ensures Inv(h, DoReserve(h, s, c)) && Grows(h, s, DoReserve(h, s, c))
  {
    hide NameOf, Valid, Reads, Complete, Body, FileOk;
    var t, e := DoReserve(h, s, c), s.callers[c].job.entry;
    assert CallerOk(h, s, c);
    if NameOf(h, e) in s.files {
      MovesKeep(h, s, t, c);
    } else {
      ReserveKeepsFiles(h, s, c);
      forall d | d in t.callers ensures CallerOk(h, t, d) {
        ReserveKeepsCallers(h, s, c, d);
      }
    }
  }

  lemma BodyIsNotEmpty(e: Entry)
    ensures Body(e) != ""
  {
    HeadTellsKind(Object(Fields(e)), true);
  }

  lemma ProperPartIsIncomplete(h: string -> string, kind: Kind, name: string, e: Entry, part: string)
    requires part <= Body(e) && part != Body(e)
    ensures !Complete(h, kind, name, part) && forall f :: !Reads(h, kind, name, part, f)
  {
    hide Body, NameOf, Valid;
    assert part == Body(e)[..|part|];
    forall f ensures !Reads(h, kind, name, part, f) {
      PartOfABodyIsNoBody(e, |part|, f);
    }
  }

  lemma FillKeeps(h: string -> string, s: Store, c: nat, upTo: nat)
    requires Inv(h, s) && Enabled(h, s, Fill(c, upTo))
    ensures Inv(h, DoFill(h, s, c, upTo)) && Grows(h, s, DoFill(h, s, c, upTo))
  {
    hide NameOf, Valid, Body, Complete, Reads;
    var t, e := DoFill(h, s, c, upTo), s.callers[c].job.entry;
    var mine := NameOf(h, e);
    assert CallerOk(h, s, c) && FileOk(h, s, mine);
    ProperPartIsIncomplete(h, s.kind, mine, e, s.files[mine]);
    forall name | name in t.files ensures FileOk(h, t, name) {
      assert FileOk(h, s, name);
    }
    forall d | d in t.callers ensures CallerOk(h, t, d) {
      assert CallerOk(h, s, d);
    }
  }

  lemma ReadKeeps(h: string -> string, s: Store, c: nat, name: string)
    requires Inv(h, s) && Enabled(h, s, ReadFile(c, name))
    ensures Inv(h, DoRead(h, s, c, name)) && Grows(h, s, DoRead(h, s, c, name))
  {
    hide Body, Valid;
    assert CallerOk(h, s, c);
    MovesKeep(h, s, DoRead(h, s, c, name), c);
  }

  predicate OnlyMovesItsCaller(step: Step) {
    !step.ReadFile? && !step.Reserve? && !step.Fill?
  }

  lemma MoveIsAllowed(h: string -> string, s: Store, step: Step)
    requires Enabled(h, s, step) && OnlyMovesItsCaller(step)
    requires step.c in s.callers ==> CallerOk(h, s, step.c)
    ensures OnlyMoved(s, Do(h, s, step), step.c) && CallerOk(h, Do(h, s, step), step.c)
  {
    hide Body, Valid, NameOf, Reads, DoRead, DoReserve, DoFill, Complete;
  }

  lemma StepKeeps(h: string -> string, s: Store, step: Step)
    requires Inv(h, s) && Enabled(h, s, step)
    ensures Inv(h, Do(h, s, step)) && Grows(h, s, Do(h, s, step))
  {
    hide Body, Valid, NameOf, Reads, DoRead, DoReserve, DoFill, FileOk, CallerOk, Complete, FoundOk, Grows;
    if step.ReadFile? {
      ReadKeeps(h, s, step.c, step.name);
    } else if step.Reserve? {
      ReserveKeeps(h, s, step.c);
    } else if step.Fill? {
      FillKeeps(h, s, step.c, step.upTo);
    } else {
      MoveIsAllowed(h, s, step);
      MovesKeep(h, s, Do(h, s, step), step.c);
    }
  }

  lemma GrowsTransitive(h: string -> string, s: Store, t: Store, u: Store)
    requires Grows(h, s, t) && Grows(h, t, u)
    ensures Grows(h, s, u)
  {
    hide Complete;
  }

  /** Whatever happens, reservations stay with their owner and complete records stay as they are. */
  lemma {:induction false} RecordsLast(h: string -> string, s: Store, steps: seq<Step>)
    requires Inv(h, s) && Runs(h, s, steps)
    ensures Inv(h, After(h, s, steps)) && Grows(h, s, After(h, s, steps))
    decreases |steps|
  {
    hide Inv, Enabled, Do, Complete;
    if steps != [] {
      var t := Do(h, s, steps[0]);
      StepKeeps(h, s, steps[0]);
      RecordsLast(h, t, steps[1..]);
      GrowsTransitive(h, s, t, After(h, t, steps[1..]));
    }
  }

  // ------------------------------------------------------------ one per key

  /** At most one grant per approval id, at most one consumption per activation id. */
  lemma OnePerKey(h: string -> string, kind: Kind, steps: seq<Step>, c: nat, d: nat)
    requires Runs(h, Init(kind), steps)
    requires var s := After(h, Init(kind), steps);
             && Adds(s, c) && s.callers[c].phase.Added?
             && Adds(s, d) && s.callers[d].phase.Added?
             && Key(s.callers[c].job.entry) == Key(s.callers[d].job.entry)
    ensures c == d
  {
    InitHolds(h, kind);
    RecordsLast(h, Init(kind), steps);
    var s := After(h, Init(kind), steps);
    assert CallerOk(h, s, c) && CallerOk(h, s, d);
  }

  /** Whoever got its grant, or its consumption, has a complete record on disk. */
  lemma AddedIsRecorded(h: string -> string, s: Store, c: nat)
    requires Inv(h, s) && Adds(s, c) && s.callers[c].phase.Added?
    ensures var e := s.callers[c].job.entry;
            NameOf(h, e) in s.files && Reads(h, s.kind, NameOf(h, e), s.files[NameOf(h, e)], e)
  {
    hide Body, Valid;
    assert CallerOk(h, s, c);
    assert FileOk(h, s, NameOf(h, s.callers[c].job.entry));
  }

  /** Two records that were read under one key, at whatever times, are one record. */
  lemma OneRecordPerKey(h: string -> string, s: Store, e: Entry, f: Entry)
    requires FoundOk(h, s, {e, f}) && Key(e) == Key(f)
    ensures e == f
  {
    hide Body, Valid;
    assert e in {e, f} && f in {e, f};
    assert Body(e)[..|Body(e)|] == Body(e);
    PartOfABodyIsNoBody(e, |Body(e)|, f);
  }

  /** A collision-free digest keeps keys apart: creating the file fails only if this very key was used before. */
  lemma RefusedOnlyForItsOwnKey(h: string -> string, s: Store, c: nat)
    requires Injective(h) && Inv(h, s) && Enabled(h, s, Reserve(c))
    ensures Do(h, s, Reserve(c)).callers[c].phase.Refused? <==>
      exists d :: Adds(s, d) && d in s.reservedBy.Values && Key(s.callers[d].job.entry) == Key(s.callers[c].job.entry)
                  && (Holding(s.callers[d].phase) || s.callers[d].phase.Crashed?)
  {
    hide Body, Valid, Complete;
    var name := NameOf(h, s.callers[c].job.entry);
    if name in s.files {
      assert FileOk(h, s, name);
      var d := s.reservedBy[name];
      assert NameOf(h, s.callers[d].job.entry) == name;
      SuffixCancels(h(Key(s.callers[d].job.entry)), h(Key(s.callers[c].job.entry)));
    } else {
      forall d | Adds(s, d) && d in s.reservedBy.Values
        ensures Key(s.callers[d].job.entry) != Key(s.callers[c].job.entry)
      {
        var other :| other in s.reservedBy && s.reservedBy[other] == d;
        assert FileOk(h, s, other);
      }
    }
  }

  lemma SuffixCancels(a: string, b: string)
    requires a + ".json" == b + ".json"
    ensures a == b
  {
    assert a == (a + ".json")[..|a|] && b == (b + ".json")[..|b|];
  }
}
