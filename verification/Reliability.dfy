/**
 The runtime's reliability ledger, with its counters and its bounded memory of
 failures, and the runtime cycle that keeps it.
 */
module Reliability {
  import opened Values

  datatype Failure = Failure(sequence: nat, cycle: nat, component: string, bounded: bool)

  function CountBounded(history: seq<Failure>): nat {
    if history == [] then 0
    else CountBounded(history[..|history| - 1]) + if history[|history| - 1].bounded then 1 else 0
  }

  function Min(a: nat, b: nat): nat {
    if a < b then a else b
  }

  /** What a deque of that capacity keeps of everything that was appended to it. */
  function Retained(history: seq<Failure>, capacity: nat): seq<Failure> {
    history[|history| - Min(capacity, |history|)..]
  }

  /** Numbered from one without gaps, with cycles that never go back. */
  predicate Orderly(history: seq<Failure>, started: nat) {
    && (forall i :: 0 <= i < |history| ==> history[i].sequence == i + 1 && 1 <= history[i].cycle <= started)
    && (forall i, j :: 0 <= i < j < |history| ==> history[i].cycle <= history[j].cycle)
  }

  class Ledger {
    const capacity: nat
    var started: nat
    var completed: nat
    var rejected: nat
    var degraded: nat
    var consecutive: nat
    var totalBounded: nat
    var totalUnbounded: nat
    var sequence: nat
    var current: Option<nat>
    var failures: seq<Failure>
    ghost var history: seq<Failure>   // every failure ever recorded

    ghost predicate Valid()
      reads this
    {
      && capacity >= 1
      && started == completed + (if current.Some? then 1 else 0)
      && (current.Some? ==> current.value == started)
      && consecutive <= degraded <= completed
      && sequence == |history| == totalBounded + totalUnbounded
      && totalBounded == CountBounded(history)
      && failures == Retained(history, capacity)
      && Orderly(history, started)
    }

    constructor (capacity: nat)
      requires capacity >= 1
      ensures Valid() && this.capacity == capacity && current.None? && history == []
      ensures started == rejected == degraded == 0
    {
      this.capacity := capacity;
      started, completed, rejected, degraded, consecutive := 0, 0, 0, 0, 0;
      totalBounded, totalUnbounded, sequence, current, failures := 0, 0, 0, None, [];
      history := [];
    }

    /** None where a cycle is open already. */
    method BeginCycle() returns (cycle: Option<nat>)
      requires Valid()
      modifies this`started, this`rejected, this`current
      ensures Valid()
      ensures old(current).Some? ==>
        cycle.None? && started == old(started) && current == old(current) && rejected == old(rejected) + 1
      ensures old(current).None? ==>
        cycle == Some(started) && started == old(started) + 1 && current == Some(started) && rejected == old(rejected)
    {
      if current.Some? {
        rejected := rejected + 1;
        return None;
      }
      started := started + 1;
      current := Some(started);
      return current;
    }

    /** Appending to a full deque drops its oldest entry. */
    method RecordFailure(cycle: nat, component: string, bounded: bool) returns (ok: bool)
      requires Valid()
      modifies this`sequence, this`failures, this`totalBounded, this`totalUnbounded, this`history
      ensures Valid()
      ensures ok <==> current == Some(cycle)
      ensures ok ==> history == old(history) + [Failure(|old(history)| + 1, cycle, component, bounded)]
      ensures !ok ==> history == old(history) && failures == old(failures)
      ensures totalBounded + totalUnbounded == old(totalBounded + totalUnbounded) + if ok then 1 else 0
    {
      hide Retained, Orderly, CountBounded;
      if Some(cycle) != current {
        return false;
      }
      sequence := sequence + 1;
      var evidence := Failure(sequence, cycle, component, bounded);
      failures := if |failures| == capacity then failures[1..] + [evidence] else failures + [evidence];
      if bounded {
        totalBounded := totalBounded + 1;
      } else {
        totalUnbounded := totalUnbounded + 1;
      }
      RetainedStep(history, evidence, capacity);
      HistoryStep(history, evidence, started);
      history := history + [evidence];
      return true;
    }

    method CompleteCycle(cycle: nat, isDegraded: bool) returns (ok: bool)
      requires Valid()
      modifies this`completed, this`degraded, this`consecutive, this`current
      ensures Valid()
      ensures ok <==> old(current) == Some(cycle)
      ensures ok ==>
        && completed == old(completed) + 1 && current.None?
        && degraded == old(degraded) + (if isDegraded then 1 else 0)
        && consecutive == (if isDegraded then old(consecutive) + 1 else 0)
      ensures !ok ==> completed == old(completed) && degraded == old(degraded) && current == old(current)
    {
      if Some(cycle) != current {
        return false;
      }
      completed := completed + 1;
      if isDegraded {
        degraded := degraded + 1;
        consecutive := consecutive + 1;
      } else {
        consecutive := 0;
      }
      current := None;
      return true;
    }
  }

  lemma HistoryStep(history: seq<Failure>, f: Failure, started: nat)
    requires Orderly(history, started) && f.sequence == |history| + 1 && f.cycle == started >= 1
    ensures Orderly(history + [f], started)
    ensures CountBounded(history + [f]) == CountBounded(history) + if f.bounded then 1 else 0
  {
    assert (history + [f])[..|history|] == history;
  }

  lemma RetainedStep(history: seq<Failure>, f: Failure, capacity: nat)
    requires capacity >= 1
    ensures var kept := Retained(history, capacity);
            && |kept| == Min(capacity, |history|)
            && Retained(history + [f], capacity) == if |kept| == capacity then kept[1..] + [f] else kept + [f]
  {
    var kept, more := Retained(history, capacity), Retained(history + [f], capacity);
    if |kept| == capacity {
      assert more == kept[1..] + [f];
    } else {
      assert more == kept + [f];
    }
  }

  // -------------------------------------------------------------------- a cycle

  /** How a call comes back: normally, with an ordinary exception, or with one that is not (an interrupt). */
  datatype Way = Returns | Raises | Interrupts

  /**
   How everything a cycle calls behaves: the four gates, the sensor (which also raises
   on malformed output), the diagnostic, the report sync, and the two places where a
   failure is printed, inside the cycle and on its way out.
   */
  datatype World = World(gates: seq<Way>, sensor: Way, diagnostic: Way, sync: Way, printInside: Way, printOutside: Way)

  datatype Event = Event(component: string, bounded: bool)

  /** How the protected part ends: where it stands, whether it is degraded, what it recorded, how it left. */
  datatype Ending = Ending(component: string, isDegraded: bool, recorded: seq<Event>, way: Way)

  const GATES: seq<string> :=
    ["canary_live_execution", "production_probe_live_execution", "gate3_live_validation", "gate4_autonomous_remediation"]

  function FirstTrouble(gates: seq<Way>): (i: nat)
    ensures i <= |gates| && (i < |gates| ==> !gates[i].Returns?)
    ensures forall j :: 0 <= j < i ==> gates[j].Returns?
  {
    if gates == [] || !gates[0].Returns? then 0 else 1 + FirstTrouble(gates[1..])
  }

  function Synced(w: World, isDegraded: bool, recorded: seq<Event>): Ending {
    Ending(if w.sync.Returns? then "runtime_reliability" else "incident_report_sync", isDegraded, recorded, w.sync)
  }

  /** A bounded failure is recorded, printed, and the cycle goes on, unless printing fails. */
  function Bounded(w: World, component: string): Ending {
    var recorded := [Event(component, true)];
    if !w.printInside.Returns? then Ending(component, false, recorded, w.printInside) else Synced(w, true, recorded)
  }

  function Protected(w: World): Ending
    requires |w.gates| == 4
  {
    var i := FirstTrouble(w.gates);
    if i < 4 then Ending(GATES[i], false, [], w.gates[i])
    else if w.sensor.Interrupts? then Ending("sensor_adapter", false, [], Interrupts)
    else if w.sensor.Raises? then Bounded(w, "sensor_adapter")
    else if w.diagnostic.Interrupts? then Ending("diagnostic", false, [], Interrupts)
    else if w.diagnostic.Raises? then Bounded(w, "diagnostic")
    else Synced(w, false, [])
  }

  /** Everything a cycle records, whether it closes, and whether it counts as degraded. */
  datatype Account = Account(recorded: seq<Event>, closes: bool, isDegraded: bool, answers: bool)

  function AccountOf(w: World): Account
    requires |w.gates| == 4
  {
    var e := Protected(w);
    match e.way
    case Returns => Account(e.recorded, true, e.isDegraded, true)
    case Interrupts => Account(e.recorded, true, true, false)
    case Raises =>
      Account(e.recorded + [Event(e.component, false)], w.printOutside.Returns?, true, false)
  }

  datatype Outcome = NotRunning | Overlap | Finished | Failed

  function Entries(recorded: seq<Event>, from: nat, cycle: nat): seq<Failure> {
    if recorded == [] then []
    else
      var before, last := recorded[..|recorded| - 1], recorded[|recorded| - 1];
      Entries(before, from, cycle) + [Failure(from + |recorded|, cycle, last.component, last.bounded)]
  }

  lemma EntriesOfOne(e: Event, from: nat, cycle: nat)
    ensures Entries([], from, cycle) == []
    ensures Entries([e], from, cycle) == [Failure(from + 1, cycle, e.component, e.bounded)]
  {
    assert [e][..0] == [];
  }

  lemma EntriesSnoc(recorded: seq<Event>, e: Event, from: nat, cycle: nat)
    ensures Entries(recorded + [e], from, cycle)
         == Entries(recorded, from, cycle) + [Failure(from + |recorded| + 1, cycle, e.component, e.bounded)]
    ensures |Entries(recorded, from, cycle)| == |recorded|
  {
    assert (recorded + [e])[..|recorded|] == recorded;
  }

  /** `run_once`. */
  method RunOnce(ledger: Ledger, running: bool, w: World) returns (r: Outcome)
    requires ledger.Valid() && |w.gates| == 4
    modifies ledger
    ensures ledger.Valid()
    ensures r.NotRunning? <==> !running
    ensures r.Overlap? <==> running && old(ledger.current).Some?
    ensures r.NotRunning? ==> ledger.started == old(ledger.started) && ledger.current == old(ledger.current)
    ensures r.NotRunning? || r.Overlap? ==> ledger.history == old(ledger.history) && ledger.completed == old(ledger.completed)
    ensures running && old(ledger.current).None? ==>
      && ledger.started == old(ledger.started) + 1
      && ledger.history == old(ledger.history) + Entries(AccountOf(w).recorded, |old(ledger.history)|, ledger.started)
      && (ledger.current.None? <==> AccountOf(w).closes)
      && ledger.completed == old(ledger.completed) + (if AccountOf(w).closes then 1 else 0)
      && ledger.degraded == old(ledger.degraded) + (if AccountOf(w).closes && AccountOf(w).isDegraded then 1 else 0)
      && (r.Finished? <==> AccountOf(w).answers)
  {
    hide Orderly, Retained, CountBounded, FirstTrouble, Protected, Entries;
    if !running {
      return NotRunning;
    }
    var began := ledger.BeginCycle();
    if began.None? {
      return Overlap;
    }
    var cycle := began.value;
    var e := RunProtected(ledger, cycle, w);
    match e.way {
      case Returns =>
        var _ := ledger.CompleteCycle(cycle, e.isDegraded);
        return Finished;
      case Raises =>
        EntriesSnoc(e.recorded, Event(e.component, false), |old(ledger.history)|, cycle);
        var _ := ledger.RecordFailure(cycle, e.component, false);
        if w.printOutside.Returns? {
          var _ := ledger.CompleteCycle(cycle, true);
        }
        return Failed;
      case Interrupts =>
        var _ := ledger.CompleteCycle(cycle, true);
        return Failed;
    }
  }

  /** The part of the cycle inside its outer try. */
  method RunProtected(ledger: Ledger, cycle: nat, w: World) returns (e: Ending)
    requires ledger.Valid() && ledger.current == Some(cycle) && |w.gates| == 4
    modifies ledger`sequence, ledger`failures, ledger`totalBounded, ledger`totalUnbounded, ledger`history
    ensures ledger.Valid() && e == Protected(w)
    ensures ledger.history == old(ledger.history) + Entries(e.recorded, |old(ledger.history)|, cycle)
  {
    hide Orderly, Retained, CountBounded, Entries;
    EntriesOfOne(Event("sensor_adapter", true), |ledger.history|, cycle);
    EntriesOfOne(Event("diagnostic", true), |ledger.history|, cycle);
    var active := GATES[0];
    for i := 0 to 4
      invariant FirstTrouble(w.gates) >= i
      invariant ledger.Valid() && ledger.history == old(ledger.history)
    {
      active := GATES[i];
      if !w.gates[i].Returns? {
        return Ending(active, false, [], w.gates[i]);
      }
    }
    active := "sensor_adapter";
    var sensorAvailable, isDegraded, recorded := true, false, [];
    if w.sensor.Interrupts? {
      return Ending(active, false, [], Interrupts);
    } else if w.sensor.Raises? {
      var _ := ledger.RecordFailure(cycle, active, true);
      recorded := [Event(active, true)];
      if !w.printInside.Returns? {
        return Ending(active, false, recorded, w.printInside);
      }
      sensorAvailable, isDegraded := false, true;
    }
    if sensorAvailable {
      active := "diagnostic";
      if w.diagnostic.Interrupts? {
        return Ending(active, false, [], Interrupts);
      } else if w.diagnostic.Raises? {
        var _ := ledger.RecordFailure(cycle, active, true);
        recorded := [Event(active, true)];
        if !w.printInside.Returns? {
          return Ending(active, false, recorded, w.printInside);
        }
        isDegraded := true;
      }
    }
    active := "incident_report_sync";
    if !w.sync.Returns? {
      return Ending(active, isDegraded, recorded, w.sync);
    }
    active := "runtime_reliability";
    return Ending(active, isDegraded, recorded, Returns);
  }

  /** A gate raises, and those before it return. */
  predicate GateRaises(w: World)
    requires |w.gates| == 4
  {
    exists i :: 0 <= i < 4 && w.gates[i].Raises? && forall j :: 0 <= j < i ==> w.gates[j].Returns?
  }

  predicate GatesReturn(w: World) {
    forall i :: 0 <= i < |w.gates| ==> w.gates[i].Returns?
  }

  /** The sensor or the diagnostic raises, which is recorded as a bounded failure. */
  predicate Troubled(w: World) {
    w.sensor.Raises? || (w.sensor.Returns? && w.diagnostic.Raises?)
  }

  /** An exception leaves the cycle: out of a gate, out of printing a bounded failure, or out of the report sync. */
  predicate LeftByException(w: World)
    requires |w.gates| == 4
  {
    || GateRaises(w)
    || (GatesReturn(w) && Troubled(w) && w.printInside.Raises?)
    || (GatesReturn(w) && Troubled(w) && w.printInside.Returns? && w.sync.Raises?)
    || (GatesReturn(w) && w.sensor.Returns? && w.diagnostic.Returns? && w.sync.Raises?)
  }

  lemma LeavesByException(w: World)
    requires |w.gates| == 4
    ensures Protected(w).way.Raises? <==> LeftByException(w)
  {
    var i := FirstTrouble(w.gates);
    assert i < 4 ==> !w.gates[i].Returns?;
    if GateRaises(w) {
      var k :| 0 <= k < 4 && w.gates[k].Raises? && forall j :: 0 <= j < k ==> w.gates[j].Returns?;
      assert i == k;
    }
  }

  /**
   A cycle that was opened is closed again unless an exception leaves it and printing
   that failure raises as well: exactly then it stays open.
   */
  lemma ClosesUnlessPrintingFails(w: World)
    requires |w.gates| == 4
    ensures AccountOf(w).closes <==> !(LeftByException(w) && !w.printOutside.Returns?)
    ensures AccountOf(w).answers ==> AccountOf(w).closes
    ensures |AccountOf(w).recorded| <= 2
    ensures Event("sensor_adapter", true) in AccountOf(w).recorded || Event("diagnostic", true) in AccountOf(w).recorded ==>
      AccountOf(w).isDegraded
    ensures (exists component :: Event(component, false) in AccountOf(w).recorded) <==> LeftByException(w)
  {
    LeavesByException(w);
    hide LeftByException;
    var e := Protected(w);
    if e.way.Raises? {
      assert Event(e.component, false) in AccountOf(w).recorded;
    }
  }

  /** A cycle left open blocks every later one: each is rejected and counted. */
  method OpenCycleBlocks(ledger: Ledger, w: World, next: World) returns (r: Outcome)
    requires ledger.Valid() && ledger.current.None? && |w.gates| == 4 && |next.gates| == 4
    requires LeftByException(w) && !w.printOutside.Returns?
    modifies ledger
    ensures ledger.Valid() && r.Overlap? && ledger.current == Some(ledger.started) && ledger.started == ledger.completed + 1
  {
    LeavesByException(w);
    var _ := RunOnce(ledger, true, w);
    r := RunOnce(ledger, true, next);
  }
}
