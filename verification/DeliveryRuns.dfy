/** What one delivery comes to when nobody comes between, in any reachable state. */
module DeliveryRuns {
  import opened Values
  import opened DeliveryLedger

  lemma Prepend(s: Ledger, step: Step, rest: seq<Step>)
    requires Enabled(s, step) && Runs(Do(s, step), rest)
    ensures Runs(s, [step] + rest) && After(s, [step] + rest) == After(Do(s, step), rest)
  {
    hide Enabled, Do;
    assert ([step] + rest)[1..] == rest;
  }

  /** At three times: when it is claimed, marked and settled. */
  function OwnSteps(c: nat, q: Delivery, sent: Sent, claimed: int, marked: int, settled: int): seq<Step> {
    [Arrive(c, q, true), Check(c), Publish(c, claimed)] + [LoadToMark(c, marked), Store(c), Deliver(c, sent)]
    + [LoadToSettle(c, settled), Store(c)]
  }

  /** The ledger with this caller in this phase and this record under its id. */
  ghost predicate Stands(s: Ledger, c: nat, q: Delivery, phase: Phase, r: Record) {
    c in s.callers && s.callers[c] == Caller(q, true, phase) && q.id in s.records && s.records[q.id] == r
  }

  function Fresh(q: Delivery, now: int): Record {
    Record(q, Claimed, now, now, None, None, None)
  }

  lemma Claims(s: Ledger, c: nat, q: Delivery, now: int)
    requires c !in s.callers && q.id !in s.records
    ensures var steps := [Arrive(c, q, true), Check(c), Publish(c, now)];
            Runs(s, steps) && Stands(After(s, steps), c, q, Won, Fresh(q, now)) && After(s, steps).log == s.log
  {
    var s1 := Do(s, Arrive(c, q, true));
    var s2 := Do(s1, Check(c));
    assert Stands(Do(s2, Publish(c, now)), c, q, Won, Fresh(q, now));
    Three(s, Arrive(c, q, true), Check(c), Publish(c, now));
  }

  lemma Three(s: Ledger, a: Step, b: Step, d: Step)
    requires Enabled(s, a) && Enabled(Do(s, a), b) && Enabled(Do(Do(s, a), b), d)
    ensures Runs(s, [a, b, d]) && After(s, [a, b, d]) == Do(Do(Do(s, a), b), d)
  {
    hide Enabled, Do;
    Two(Do(s, a), b, d);
    Prepend(s, a, [b, d]);
    assert [a] + [b, d] == [a, b, d];
  }

  lemma Two(s: Ledger, a: Step, b: Step)
    requires Enabled(s, a) && Enabled(Do(s, a), b)
    ensures Runs(s, [a, b]) && After(s, [a, b]) == Do(Do(s, a), b)
  {
    hide Enabled, Do;
    Prepend(Do(s, a), b, []);
    assert [b] + [] == [b];
    Prepend(s, a, [b]);
    assert [a] + [b] == [a, b];
  }

  lemma Sends(s: Ledger, c: nat, q: Delivery, sent: Sent, claimed: int, now: int)
    requires Stands(s, c, q, Won, Fresh(q, claimed)) && (sent.Reports? ==> Terminal(sent.state))
    ensures var steps := [LoadToMark(c, now), Store(c), Deliver(c, sent)];
            && Runs(s, steps)
            && Stands(After(s, steps), c, q, Settling(sent), Record(q, Running, claimed, now, None, None, None))
            && After(s, steps).log == s.log + [Attempt(c, q, sent)]
  {
    Three(s, LoadToMark(c, now), Store(c), Deliver(c, sent));
  }

  lemma Settles(s: Ledger, c: nat, q: Delivery, sent: Sent, claimed: int, marked: int, now: int)
    requires Stands(s, c, q, Settling(sent), Record(q, Running, claimed, marked, None, None, None))
    ensures var steps := [LoadToSettle(c, now), Store(c)];
            && Runs(s, steps) && After(s, steps).log == s.log
            && c in After(s, steps).callers && q.id in After(s, steps).records
            && var r := After(s, steps).records[q.id];
               After(s, steps).callers[c].phase == Returned(r, false) && r.bound == q && Tells(r, sent)
               && r.createdAt == claimed && r.updatedAt == now
  {
    Two(s, LoadToSettle(c, now), Store(c));
  }

  lemma {:induction false} Concat(s: Ledger, a: seq<Step>, b: seq<Step>)
    requires Runs(s, a) && Runs(After(s, a), b)
    ensures Runs(s, a + b) && After(s, a + b) == After(After(s, a), b)
    decreases |a|
  {
    hide Enabled, Do;
    if a == [] {
      assert a + b == b;
    } else {
      Concat(Do(s, a[0]), a[1..], b);
      assert (a + b)[1..] == a[1..] + b;
    }
  }

  /**
   An enabled delivery under a new id is sent, once, and answered with a record that
   tells what the transport did.
   */
  lemma NewDeliveryIsSent(s: Ledger, c: nat, q: Delivery, sent: Sent, claimed: int, marked: int, settled: int)
    requires c !in s.callers && q.id !in s.records && (sent.Reports? ==> Terminal(sent.state))
    ensures Runs(s, OwnSteps(c, q, sent, claimed, marked, settled))
    ensures var t := After(s, OwnSteps(c, q, sent, claimed, marked, settled));
            && t.log == s.log + [Attempt(c, q, sent)]
            && c in t.callers && q.id in t.records && t.callers[c].phase == Returned(t.records[q.id], false)
            && t.records[q.id].bound == q && Tells(t.records[q.id], sent)
            && t.records[q.id].createdAt == claimed && t.records[q.id].updatedAt == settled
  {
    hide Do, Enabled, Tells;
    var first, second, third :=
      [Arrive(c, q, true), Check(c), Publish(c, claimed)], [LoadToMark(c, marked), Store(c), Deliver(c, sent)],
      [LoadToSettle(c, settled), Store(c)];
    Claims(s, c, q, claimed);
    Sends(After(s, first), c, q, sent, claimed, marked);
    Concat(s, first, second);
    Settles(After(s, first + second), c, q, sent, claimed, marked, settled);
    Concat(s, first + second, third);
  }

  /**
   A delivery under an id that is taken is never sent: with the same projection,
   destination and transport it is answered with the record there, if that is finished,
   and otherwise it is refused.
   */
  lemma TakenDeliveryIsAnswered(s: Ledger, c: nat, q: Delivery, now: int)
    requires c !in s.callers && q.id in s.records
    ensures var steps := [Arrive(c, q, true), Check(c)] + [Publish(c, now), Lose(c)];
            && Runs(s, steps)
            && var t, r := After(s, steps), s.records[q.id];
               && t.records == s.records && t.log == s.log && c in t.callers
               && t.callers[c].phase ==
                    if r.bound.projection == q.projection && r.bound.destination == q.destination
                       && r.bound.transport == q.transport && !r.state.Claimed? && !r.state.Running?
                    then Returned(r, true) else Raised
  {
    var first, second := [Arrive(c, q, true), Check(c)], [Publish(c, now), Lose(c)];
    Two(s, Arrive(c, q, true), Check(c));
    var u := After(s, first);
    assert u.callers[c] == Caller(q, true, Ready) && u.records == s.records && u.log == s.log;
    Two(u, Publish(c, now), Lose(c));
    Concat(s, first, second);
  }

  /** With the transport disabled nothing is written and nothing sent. */
  lemma DisabledTransportSendsNothing(s: Ledger, c: nat, q: Delivery)
    requires c !in s.callers
    ensures var steps := [Arrive(c, q, false), Check(c)];
            && Runs(s, steps)
            && var t := After(s, steps);
               t.records == s.records && t.log == s.log && c in t.callers && t.callers[c].phase == Disabled
  {
    Two(s, Arrive(c, q, false), Check(c));
  }

  function AheadOf(c: nat, p: Phase): Step {
    match p
    case Arrived => Check(c)
    case Ready => Publish(c, 0)
    case Losing => Lose(c)
    case Won => LoadToMark(c, 0)
    case Writing(_, _) => Store(c)
    case Marked => Deliver(c, Raises(""))
    case _ => LoadToSettle(c, 0)
  }

  lemma AheadIsEnabled(s: Ledger, c: nat)
    requires Inv(s) && c in s.callers
    ensures var p := s.callers[c].phase;
            p.Returned? || p.Disabled? || p.Raised? || p.Crashed? || (Enabled(s, AheadOf(c, p)) && Enabled(s, Crash(c)))
  {
    hide LogOk, RecordsOk, Reported, Logged, InStep;
    assert CallerOk(s, c, s.callers[c]);
  }

  /** Nobody is ever stuck: each caller that has not ended can take a step, and can crash. */
  lemma NobodyIsStuck(steps: seq<Step>, c: nat)
    requires Runs(Init(), steps) && c in After(Init(), steps).callers
    ensures var s := After(Init(), steps);
            var p := s.callers[c].phase;
            p.Returned? || p.Disabled? || p.Raised? || p.Crashed? ||
              (Enabled(s, Crash(c)) && exists step: Step :: step.c == c && !step.Crash? && Enabled(s, step))
  {
    InitHolds();
    RunRefines(Init(), steps);
    var s := After(Init(), steps);
    AheadIsEnabled(s, c);
    hide Do, Init, Runs, Inv, Enabled, Abs, ActionOf;
    var step := AheadOf(c, s.callers[c].phase);
    assert step.c == c && !step.Crash?;
  }
}
