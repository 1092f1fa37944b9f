/** What repeated cycles compute: a least fixpoint over the dependency graph, in few cycles. */
module SchedulerTheorems {
  import opened Values
  import opened CanonicalJson
  import opened MissionQueue
  import opened Scheduler
  import JournalDisk

  function Cycles(show: Json -> string, tasks: seq<Task>, vs: seq<Verdict>): seq<Task>
    decreases |vs|
  {
    if vs == [] then tasks else Cycles(show, Cycle(show, tasks, vs[0]), vs[1..])
  }

  predicate Idle(show: Json -> string, tasks: seq<Task>) {
    Next(show, tasks) == |tasks|
  }

  // ----------------------------------------------------------- the file level

  function FilesAfter(show: Json -> string, f: File, vs: seq<Verdict>): File
    decreases |vs|
  {
    if vs == [] then f else FilesAfter(show, FileAfter(show, f, vs[0]), vs[1..])
  }

  ghost predicate AllWellShaped(tasks: seq<Task>) {
    forall i :: 0 <= i < |tasks| ==> WellShaped(tasks[i])
  }

  lemma LoadedShapes(f: File)
    requires Loaded(f).Some?
    ensures AllWellShaped(Loaded(f).value.0)
  {
    hide WellShaped, Loadable, FromDict;
    if f.Mission? {
      forall i | 0 <= i < |f.items| ensures WellShaped(Tasks(f.items)[i]) {
        LoadingShapes(f.items[i]);
      }
    }
  }

  lemma CycleShapes(show: Json -> string, tasks: seq<Task>, v: Verdict)
    requires AllWellShaped(tasks)
    ensures AllWellShaped(Cycle(show, tasks, v))
  {
    hide WellShaped, Marked, IsReady;
    var i := Next(show, tasks);
    if i < |tasks| {
      var j := Find(tasks, tasks[i].id);
      MarkingShapes(tasks[j], if v.Pass? then COMPLETE else FAILED, if v.Pass? then "result" else "error",
                    if v.Pass? then v.result else v.details);
    }
  }

  /** Running a cycle through the file, loading and saving, is running it on the tasks. */
  lemma FileCycle(show: Json -> string, f: File, v: Verdict)
    requires Loaded(f).Some?
    ensures Loaded(FileAfter(show, f, v)) == Some((Cycle(show, Loaded(f).value.0, v), Loaded(f).value.1))
  {
    hide WellShaped, Marked, IsReady, Loadable, FromDict, ToDict, JournalDisk.Strip;
    LoadedShapes(f);
    CycleShapes(show, Loaded(f).value.0, v);
    if Picked(show, f).Some? {
      SaveLoad(Cycle(show, Loaded(f).value.0, v), f.missionId);
    }
  }

  lemma {:induction false} FileCycles(show: Json -> string, f: File, vs: seq<Verdict>)
    requires Loaded(f).Some?
    ensures Loaded(FilesAfter(show, f, vs)) == Some((Cycles(show, Loaded(f).value.0, vs), Loaded(f).value.1))
    decreases |vs|
  {
    hide Loaded, FileAfter, Cycle;
    if vs != [] {
      FileCycle(show, f, vs[0]);
      FileCycles(show, FileAfter(show, f, vs[0]), vs[1..]);
    }
  }

  // -------------------------------------------------------------- few cycles

  function PendingCount(tasks: seq<Task>): nat {
    if tasks == [] then 0 else (if tasks[0].status == PENDING then 1 else 0) + PendingCount(tasks[1..])
  }

  lemma {:induction false} PendingCountUpdate(tasks: seq<Task>, i: nat, t: Task)
    requires i < |tasks| && tasks[i].status == PENDING && t.status != PENDING
    ensures PendingCount(tasks[i := t]) == PendingCount(tasks) - 1
  {
    if i > 0 {
      PendingCountUpdate(tasks[1..], i - 1, t);
      assert tasks[i := t][1..] == tasks[1..][i - 1 := t];
    }
  }

  /** A cycle that runs a task leaves one pending task fewer, duplicate ids or not. */
  lemma CycleUsesUpOne(show: Json -> string, tasks: seq<Task>, v: Verdict)
    requires !Idle(show, tasks)
    ensures PendingCount(Cycle(show, tasks, v)) == PendingCount(tasks) - 1
  {
    var i := Next(show, tasks);
    var j := Find(tasks, tasks[i].id);
    hide Deps;
    assert tasks[j].status == PENDING;
    PendingCountUpdate(tasks, j, Settled(tasks, tasks[i].id, v)[j]);
  }

  /** The number of cycles that ran a task. */
  function Productive(show: Json -> string, tasks: seq<Task>, vs: seq<Verdict>): nat
    decreases |vs|
  {
    if vs == [] then 0
    else (if Idle(show, tasks) then 0 else 1) + Productive(show, Cycle(show, tasks, vs[0]), vs[1..])
  }

  lemma {:induction false} IdleStays(show: Json -> string, tasks: seq<Task>, vs: seq<Verdict>)
    requires Idle(show, tasks)
    ensures Cycles(show, tasks, vs) == tasks && Productive(show, tasks, vs) == 0
    decreases |vs|
  {
    if vs != [] {
      IdleStays(show, tasks, vs[1..]);
    }
  }

  /**
   At most as many cycles run a task as there were pending tasks; after that many
   cycles the queue is idle and stays so, whatever the verdicts were.
   */
  lemma {:induction false} FewCycles(show: Json -> string, tasks: seq<Task>, vs: seq<Verdict>)
    ensures Productive(show, tasks, vs) + PendingCount(Cycles(show, tasks, vs)) == PendingCount(tasks)
    ensures |vs| >= PendingCount(tasks) ==> Idle(show, Cycles(show, tasks, vs))
    decreases |vs|
  {
    hide Cycle, Idle;
    if Idle(show, tasks) {
      IdleStays(show, tasks, vs);
    } else if vs != [] {
      CycleUsesUpOne(show, tasks, vs[0]);
      FewCycles(show, Cycle(show, tasks, vs[0]), vs[1..]);
    } else {
      NoPendingIsIdle(show, tasks);
    }
  }

  lemma NoPendingIsIdle(show: Json -> string, tasks: seq<Task>)
    ensures PendingCount(tasks) == 0 ==> Idle(show, tasks)
  {
    if !Idle(show, tasks) {
      CycleUsesUpOne(show, tasks, Pass(Null));
    }
  }

  // ------------------------------------------------------------ what may change

  /** Ids and dependencies stay; a status only changes from pending to a verdict. */
  predicate Evolved(show: Json -> string, a: seq<Task>, b: seq<Task>) {
    && |a| == |b|
    && forall i :: 0 <= i < |a| ==> TaskEvolved(show, a[i], b[i])
  }

  predicate TaskEvolved(show: Json -> string, t: Task, u: Task) {
    && u.id == t.id && Deps(show, u) == Deps(show, t)
    && (u.status == t.status || (t.status == PENDING && (u.status == COMPLETE || u.status == FAILED)))
  }

  lemma CycleEvolves(show: Json -> string, tasks: seq<Task>, v: Verdict)
    ensures Evolved(show, tasks, Cycle(show, tasks, v))
    ensures v.Pass? ==> forall i :: 0 <= i < |tasks| ==> Cycle(show, tasks, v)[i].status == FAILED ==> tasks[i].status == FAILED
  {
    var i := Next(show, tasks);
    if i < |tasks| {
      var j := Find(tasks, tasks[i].id);
      assert tasks[j].status == PENDING;
    }
  }

  lemma {:induction false} CyclesEvolve(show: Json -> string, tasks: seq<Task>, vs: seq<Verdict>)
    ensures Evolved(show, tasks, Cycles(show, tasks, vs))
    ensures (forall v :: v in vs ==> v.Pass?) ==>
      forall i :: 0 <= i < |tasks| ==> Cycles(show, tasks, vs)[i].status == FAILED ==> tasks[i].status == FAILED
    decreases |vs|
  {
    hide Cycle, Deps;
    if vs != [] {
      CycleEvolves(show, tasks, vs[0]);
      CyclesEvolve(show, Cycle(show, tasks, vs[0]), vs[1..]);
      assert forall v :: v in vs[1..] ==> v in vs;
      EvolvedTransitive(show, tasks, Cycle(show, tasks, vs[0]), Cycles(show, tasks, vs));
    }
  }

  lemma EvolvedTransitive(show: Json -> string, a: seq<Task>, b: seq<Task>, c: seq<Task>)
    requires Evolved(show, a, b) && Evolved(show, b, c)
    ensures Evolved(show, a, c)
  {
    hide TaskEvolved;
    forall i | 0 <= i < |a| ensures TaskEvolved(show, a[i], c[i]) {
      assert TaskEvolved(show, a[i], b[i]) && TaskEvolved(show, b[i], c[i]);
      OneTransitive(show, a[i], b[i], c[i]);
    }
  }

  lemma OneTransitive(show: Json -> string, t: Task, u: Task, w: Task)
    requires TaskEvolved(show, t, u) && TaskEvolved(show, u, w)
    ensures TaskEvolved(show, t, w)
  {
    hide Deps;
  }

  // ------------------------------------------------------------ least fixpoint

  predicate UniqueIds(tasks: seq<Task>) {
    forall i, j :: 0 <= i < j < |tasks| ==> tasks[i].id != tasks[j].id
  }

  predicate IsComplete(tasks: seq<Task>, id: string) {
    exists i :: 0 <= i < |tasks| && tasks[i].id == id && tasks[i].status == COMPLETE
  }

  predicate Exists(tasks: seq<Task>, id: string) {
    exists i :: 0 <= i < |tasks| && tasks[i].id == id
  }

  /**
   `holds` is closed under: a complete task is in; a pending task, unless excepted,
   is in when each of its dependencies exists and is in.
   */
  ghost predicate Closed(show: Json -> string, tasks: seq<Task>, excepted: string -> bool, holds: string -> bool) {
    && (forall id :: IsComplete(tasks, id) ==> holds(id))
    && (forall i :: 0 <= i < |tasks| && tasks[i].status == PENDING && !excepted(tasks[i].id)
          && (forall d :: d in Deps(show, tasks[i]) ==> Exists(tasks, d) && holds(d))
          ==> holds(tasks[i].id))
  }

  lemma FindUnique(tasks: seq<Task>, i: nat)
    requires UniqueIds(tasks) && i < |tasks|
    ensures Find(tasks, tasks[i].id) == i
  {
    var j := Find(tasks, tasks[i].id);
    assert j <= i;
  }

  lemma MetMeansComplete(tasks: seq<Task>, d: string)
    requires UniqueIds(tasks)
    ensures Met(tasks, d) <==> IsComplete(tasks, d)
    ensures Met(tasks, d) ==> Exists(tasks, d)
  {
    if i :| 0 <= i < |tasks| && tasks[i].id == d && tasks[i].status == COMPLETE {
      FindUnique(tasks, i);
    }
  }

  lemma SameExistence(show: Json -> string, a: seq<Task>, b: seq<Task>, d: string)
    requires Evolved(show, a, b)
    ensures Exists(a, d) <==> Exists(b, d)
    ensures IsComplete(a, d) ==> IsComplete(b, d)
    ensures UniqueIds(a) <==> UniqueIds(b)
  {
    hide Deps;
    forall i | 0 <= i < |a| ensures a[i].id == b[i].id && (a[i].status == COMPLETE ==> b[i].status == COMPLETE) {
      assert TaskEvolved(show, a[i], b[i]);
    }
    if i :| 0 <= i < |a| && a[i].id == d { assert b[i].id == d; }
    if i :| 0 <= i < |b| && b[i].id == d { assert a[i].id == d; }
  }

  /** One cycle keeps what a closed set holds closed, as long as it completes no excepted task. */
  lemma CycleStaysInside(show: Json -> string, tasks: seq<Task>, v: Verdict, excepted: string -> bool, holds: string -> bool)
    requires UniqueIds(tasks) && Closed(show, tasks, excepted, holds)
    requires forall id :: IsComplete(Cycle(show, tasks, v), id) ==> !excepted(id)
    ensures Closed(show, Cycle(show, tasks, v), excepted, holds) && UniqueIds(Cycle(show, tasks, v))
  {
    hide Deps, Cycle;
    var after := Cycle(show, tasks, v);
    CycleEvolves(show, tasks, v);
    SameExistence(show, tasks, after, "");
    forall id | IsComplete(after, id) ensures holds(id) {
      if !IsComplete(tasks, id) {
        NewlyComplete(show, tasks, v, id, excepted, holds);
      }
    }
    forall i | 0 <= i < |after| && after[i].status == PENDING && !excepted(after[i].id)
        && (forall d :: d in Deps(show, after[i]) ==> Exists(after, d) && holds(d))
      ensures holds(after[i].id)
    {
      assert TaskEvolved(show, tasks[i], after[i]);
      forall d | d in Deps(show, tasks[i]) ensures Exists(tasks, d) {
        SameExistence(show, tasks, after, d);
      }
    }
  }

  lemma NewlyComplete(
      show: Json -> string, tasks: seq<Task>, v: Verdict, id: string, excepted: string -> bool, holds: string -> bool)
    requires UniqueIds(tasks) && Closed(show, tasks, excepted, holds)
    requires IsComplete(Cycle(show, tasks, v), id) && !IsComplete(tasks, id) && !excepted(id)
    ensures holds(id)
  {
    hide Deps;
    var i := Next(show, tasks);
    assert i < |tasks|;
    FindUnique(tasks, i);
    assert tasks[i].id == id;
    forall d | d in Deps(show, tasks[i]) ensures Exists(tasks, d) && holds(d) {
      MetMeansComplete(tasks, d);
    }
  }

  lemma {:induction false} CyclesStayInside(
      show: Json -> string, tasks: seq<Task>, vs: seq<Verdict>, excepted: string -> bool, holds: string -> bool)
    requires UniqueIds(tasks) && Closed(show, tasks, excepted, holds)
    requires forall id :: IsComplete(Cycles(show, tasks, vs), id) ==> !excepted(id)
    ensures forall id :: IsComplete(Cycles(show, tasks, vs), id) ==> holds(id)
    decreases |vs|
  {
    hide Cycle, Deps;
    if vs != [] {
      var after := Cycle(show, tasks, vs[0]);
      CyclesEvolve(show, after, vs[1..]);
      forall id | IsComplete(after, id) ensures !excepted(id) {
        SameExistence(show, after, Cycles(show, tasks, vs), id);
      }
      CycleStaysInside(show, tasks, vs[0], excepted, holds);
      CyclesStayInside(show, after, vs[1..], excepted, holds);
    }
  }

  /** The tasks that were pending and ended up failed. */
  ghost function FailedIn(before: seq<Task>, after: seq<Task>): string -> bool
    requires |before| == |after|
  {
    id => exists i :: 0 <= i < |before| && before[i].id == id && before[i].status == PENDING && after[i].status == FAILED
  }

  lemma IdleIsClosed(show: Json -> string, before: seq<Task>, after: seq<Task>)
    requires UniqueIds(before) && Evolved(show, before, after) && Idle(show, after)
    ensures Closed(show, before, FailedIn(before, after), id => IsComplete(after, id))
  {
    hide Deps;
    SameExistence(show, before, after, "");
    forall id | IsComplete(before, id) ensures IsComplete(after, id) {
      SameExistence(show, before, after, id);
    }
    forall i | 0 <= i < |before| && before[i].status == PENDING && !FailedIn(before, after)(before[i].id)
        && (forall d :: d in Deps(show, before[i]) ==> Exists(before, d) && IsComplete(after, d))
      ensures IsComplete(after, before[i].id)
    {
      assert TaskEvolved(show, before[i], after[i]);
      if after[i].status == PENDING {
        assert !IsReady(show, after, i);
        FindUnique(after, i);
        forall d | d in Deps(show, after[i]) ensures Met(after, d) {
          MetMeansComplete(after, d);
        }
      }
    }
  }

  /**
   Once the queue is idle, the complete tasks are the least set that holds the tasks
   complete at the start and every pending task, other than those that failed, whose
   dependencies all exist and are in the set.
   */
  lemma LeastFixpoint(show: Json -> string, tasks: seq<Task>, vs: seq<Verdict>)
    requires UniqueIds(tasks) && Idle(show, Cycles(show, tasks, vs))
    ensures |Cycles(show, tasks, vs)| == |tasks|
    ensures var after := Cycles(show, tasks, vs);
            && Closed(show, tasks, FailedIn(tasks, after), id => IsComplete(after, id))
            && forall holds :: Closed(show, tasks, FailedIn(tasks, after), holds) ==>
                 forall id :: IsComplete(after, id) ==> holds(id)
    ensures (forall v :: v in vs ==> v.Pass?) ==> forall id :: !FailedIn(tasks, Cycles(show, tasks, vs))(id)
  {
    hide Deps, Idle;
    var after := Cycles(show, tasks, vs);
    CyclesEvolve(show, tasks, vs);
    IdleIsClosed(show, tasks, after);
    var failed := FailedIn(tasks, after);
    SameExistence(show, tasks, after, "");
    forall id | IsComplete(after, id) ensures !failed(id) {
      CompleteDidNotFail(show, tasks, after, id);
    }
    forall holds | Closed(show, tasks, failed, holds) ensures forall id :: IsComplete(after, id) ==> holds(id) {
      CyclesStayInside(show, tasks, vs, failed, holds);
    }
  }

  lemma CompleteDidNotFail(show: Json -> string, before: seq<Task>, after: seq<Task>, id: string)
    requires UniqueIds(before) && Evolved(show, before, after) && IsComplete(after, id)
    ensures !FailedIn(before, after)(id)
  {
    hide Deps;
    var i :| 0 <= i < |after| && after[i].id == id && after[i].status == COMPLETE;
    assert TaskEvolved(show, before[i], after[i]);
  }

  // ---------------------------------------------------------- mission complete

  predicate Edge(show: Json -> string, tasks: seq<Task>, a: string, b: string) {
    exists i :: 0 <= i < |tasks| && tasks[i].id == a && b in Deps(show, tasks[i])
  }

  predicate Walk(show: Json -> string, tasks: seq<Task>, p: seq<string>) {
    forall k :: 0 <= k < |p| - 1 ==> Edge(show, tasks, p[k], p[k + 1])
  }

  predicate ClosedWalk(show: Json -> string, tasks: seq<Task>, p: seq<string>) {
    |p| >= 2 && p[0] == p[|p| - 1] && Walk(show, tasks, p)
  }

  ghost predicate Cyclic(show: Json -> string, tasks: seq<Task>) {
    exists p :: ClosedWalk(show, tasks, p)
  }

  predicate DependenciesExist(show: Json -> string, tasks: seq<Task>) {
    forall i :: 0 <= i < |tasks| ==> forall d :: d in Deps(show, tasks[i]) ==> Exists(tasks, d)
  }

  predicate AllPending(tasks: seq<Task>) {
    forall i :: 0 <= i < |tasks| ==> tasks[i].status == PENDING
  }

  /** A task that is not the first of its id is never touched. */
  lemma {:induction false} DuplicateStays(show: Json -> string, tasks: seq<Task>, vs: seq<Verdict>, j: nat)
    requires j < |tasks| && Find(tasks, tasks[j].id) != j
    ensures |Cycles(show, tasks, vs)| == |tasks| && Cycles(show, tasks, vs)[j] == tasks[j]
    decreases |vs|
  {
    hide Deps, IsReady;
    if vs != [] {
      var after := Cycle(show, tasks, vs[0]);
      var i := Find(tasks, tasks[j].id);
      assert i < j && after[i].id == tasks[i].id && after[j] == tasks[j];
      DuplicateStays(show, after, vs[1..], j);
    }
  }

  lemma CompletionNeedsUniqueIds(show: Json -> string, tasks: seq<Task>, vs: seq<Verdict>)
    requires AllPending(tasks) && AllComplete(Cycles(show, tasks, vs))
    ensures UniqueIds(tasks)
  {
    hide Deps, Cycles;
    forall i, j | 0 <= i < j < |tasks| ensures tasks[i].id != tasks[j].id {
      if tasks[i].id == tasks[j].id {
        DuplicateStays(show, tasks, vs, j);
      }
    }
  }

  /** What a set without x that is closed keeps out: x is never complete. */
  lemma NeverComplete(show: Json -> string, tasks: seq<Task>, vs: seq<Verdict>, holds: string -> bool, x: string)
    requires UniqueIds(tasks) && AllPending(tasks) && Exists(tasks, x) && !holds(x)
    requires forall i :: 0 <= i < |tasks| && (forall d :: d in Deps(show, tasks[i]) ==> Exists(tasks, d) && holds(d)) ==>
      holds(tasks[i].id)
    ensures !AllComplete(Cycles(show, tasks, vs))
  {
    hide Deps, Cycles;
    CyclesStayInside(show, tasks, vs, (id: string) => false, holds);
    CyclesEvolve(show, tasks, vs);
    var after := Cycles(show, tasks, vs);
    var i :| 0 <= i < |tasks| && tasks[i].id == x;
    assert TaskEvolved(show, tasks[i], after[i]);
    assert !IsComplete(after, x);
  }

  lemma CompletionNeedsDependencies(show: Json -> string, tasks: seq<Task>, vs: seq<Verdict>)
    requires UniqueIds(tasks) && AllPending(tasks) && AllComplete(Cycles(show, tasks, vs))
    ensures DependenciesExist(show, tasks)
  {
    hide Deps, Cycles;
    forall i, d | 0 <= i < |tasks| && d in Deps(show, tasks[i]) ensures Exists(tasks, d) {
      if !Exists(tasks, d) {
        var x := tasks[i].id;
        forall k | 0 <= k < |tasks| && (forall e :: e in Deps(show, tasks[k]) ==> Exists(tasks, e) && e != x)
          ensures tasks[k].id != x
        {
          assert k != i;
        }
        NeverComplete(show, tasks, vs, id => id != x, x);
      }
    }
  }

  lemma CompletionNeedsNoCycle(show: Json -> string, tasks: seq<Task>, vs: seq<Verdict>)
    requires UniqueIds(tasks) && AllPending(tasks) && AllComplete(Cycles(show, tasks, vs))
    ensures !Cyclic(show, tasks)
  {
    hide Deps, Cycles;
    if p :| ClosedWalk(show, tasks, p) {
      forall k | 0 <= k < |tasks| && (forall e :: e in Deps(show, tasks[k]) ==> Exists(tasks, e) && e !in p)
        ensures tasks[k].id !in p
      {
        if tasks[k].id in p {
          OnCycle(show, tasks, p, k);
        }
      }
      assert Edge(show, tasks, p[0], p[1]);
      NeverComplete(show, tasks, vs, id => id !in p, p[0]);
    }
  }

  lemma OnCycle(show: Json -> string, tasks: seq<Task>, p: seq<string>, k: nat)
    requires UniqueIds(tasks) && ClosedWalk(show, tasks, p)
    requires k < |tasks| && tasks[k].id in p
    ensures exists d :: d in Deps(show, tasks[k]) && d in p
  {
    hide Deps;
    var m :| 0 <= m < |p| && p[m] == tasks[k].id;
    var n := if m == |p| - 1 then 0 else m;
    assert Edge(show, tasks, p[n], p[n + 1]);
    var i :| 0 <= i < |tasks| && tasks[i].id == p[n] && p[n + 1] in Deps(show, tasks[i]);
    FindUnique(tasks, i);
    FindUnique(tasks, k);
  }

  // -- and it is enough

  predicate StuckAt(tasks: seq<Task>, id: string) {
    exists i :: 0 <= i < |tasks| && tasks[i].id == id && tasks[i].status == PENDING
  }

  /** A stuck task waits for another stuck task. */
  lemma StuckOnStuck(show: Json -> string, tasks: seq<Task>, after: seq<Task>, a: string) returns (b: string)
    requires UniqueIds(tasks) && Evolved(show, tasks, after) && Idle(show, after) && DependenciesExist(show, tasks)
    requires forall i :: 0 <= i < |after| ==> after[i].status == PENDING || after[i].status == COMPLETE
    requires StuckAt(after, a)
    ensures StuckAt(after, b) && Edge(show, tasks, a, b)
  {
    hide Deps;
    SameExistence(show, tasks, after, a);
    var i :| 0 <= i < |after| && after[i].id == a && after[i].status == PENDING;
    FindUnique(after, i);
    assert !IsReady(show, after, i);
    b :| b in Deps(show, after[i]) && !Met(after, b);
    assert TaskEvolved(show, tasks[i], after[i]);
    assert Exists(tasks, b);
    SameExistence(show, tasks, after, b);
    MetMeansComplete(after, b);
    var j :| 0 <= j < |after| && after[j].id == b;
  }

  lemma {:induction false} LongWalk(show: Json -> string, tasks: seq<Task>, after: seq<Task>, a: string, n: nat)
    returns (p: seq<string>)
    requires UniqueIds(tasks) && Evolved(show, tasks, after) && Idle(show, after) && DependenciesExist(show, tasks)
    requires forall i :: 0 <= i < |after| ==> after[i].status == PENDING || after[i].status == COMPLETE
    requires StuckAt(after, a)
    ensures |p| == n + 1 && p[0] == a && Walk(show, tasks, p)
    ensures forall k :: 0 <= k < |p| ==> StuckAt(after, p[k])
    decreases n
  {
    hide Deps, Evolved, Idle, DependenciesExist, Edge;
    if n == 0 {
      p := [a];
    } else {
      var b := StuckOnStuck(show, tasks, after, a);
      var rest := LongWalk(show, tasks, after, b, n - 1);
      p := [a] + rest;
      forall k | 0 <= k < |p| - 1 ensures Edge(show, tasks, p[k], p[k + 1]) {
        assert k > 0 ==> p[k] == rest[k - 1] && p[k + 1] == rest[k];
      }
    }
  }

  /** More places than values: some value comes twice. */
  lemma {:induction false} Pigeonhole(p: seq<string>, values: set<string>) returns (i: nat, j: nat)
    requires |p| > |values| && forall k :: 0 <= k < |p| ==> p[k] in values
    ensures i < j < |p| && p[i] == p[j]
    decreases |p|
  {
    var last := p[|p| - 1];
    if k :| 0 <= k < |p| - 1 && p[k] == last {
      i, j := k, |p| - 1;
    } else {
      i, j := Pigeonhole(p[..|p| - 1], values - {last});
    }
  }

  lemma WalkSlice(show: Json -> string, tasks: seq<Task>, p: seq<string>, i: nat, j: nat)
    requires Walk(show, tasks, p) && i <= j <= |p|
    ensures Walk(show, tasks, p[i..j])
  {
    hide Edge;
    var q := p[i..j];
    forall k | 0 <= k < |q| - 1 ensures Edge(show, tasks, q[k], q[k + 1]) {
      assert Edge(show, tasks, p[i + k], p[i + k + 1]);
    }
  }

  lemma WalkPart(show: Json -> string, tasks: seq<Task>, p: seq<string>, i: nat, j: nat)
    requires Walk(show, tasks, p) && i < j < |p| && p[i] == p[j]
    ensures Cyclic(show, tasks)
  {
    hide Walk;
    WalkSlice(show, tasks, p, i, j + 1);
    assert ClosedWalk(show, tasks, p[i..j + 1]);
  }

  /** A walk that comes back to a place it has been. */
  predicate IntoCycle(show: Json -> string, tasks: seq<Task>, p: seq<string>) {
    Walk(show, tasks, p) && exists i :: 0 <= i < |p| - 1 && p[i] == p[|p| - 1]
  }

  /** From a stuck task the dependencies lead, over stuck tasks only, into a cycle. */
  lemma StuckMeansCycle(show: Json -> string, tasks: seq<Task>, after: seq<Task>, a: string) returns (p: seq<string>)
    requires UniqueIds(tasks) && Evolved(show, tasks, after) && Idle(show, after) && DependenciesExist(show, tasks)
    requires forall i :: 0 <= i < |after| ==> after[i].status == PENDING || after[i].status == COMPLETE
    requires StuckAt(after, a)
    ensures p != [] && p[0] == a && IntoCycle(show, tasks, p) && forall k :: 0 <= k < |p| ==> StuckAt(after, p[k])
    ensures Cyclic(show, tasks)
  {
    hide Deps, Evolved, Idle, DependenciesExist, Walk, Cyclic;
    var ids := set i | 0 <= i < |after| :: after[i].id;
    var whole := LongWalk(show, tasks, after, a, |ids|);
    var i, j := Pigeonhole(whole, ids);
    WalkPart(show, tasks, whole, i, j);
    WalkSlice(show, tasks, whole, 0, j + 1);
    p := whole[0..j + 1];
    assert p[i] == p[|p| - 1];
  }

  /**
   A queue that starts all pending and never fails a task reaches mission complete,
   once idle, if and only if its ids are unique, every dependency exists and the
   dependencies form no cycle.
   */
  lemma CompleteExactlyWhenWellFounded(show: Json -> string, tasks: seq<Task>, vs: seq<Verdict>)
    requires AllPending(tasks) && (forall v :: v in vs ==> v.Pass?) && |vs| >= PendingCount(tasks)
    ensures AllComplete(Cycles(show, tasks, vs)) <==>
      UniqueIds(tasks) && DependenciesExist(show, tasks) && !Cyclic(show, tasks)
  {
    hide Deps, Cycles, Idle, DependenciesExist, Cyclic, UniqueIds;
    var after := Cycles(show, tasks, vs);
    if AllComplete(after) {
      CompletionNeedsUniqueIds(show, tasks, vs);
      CompletionNeedsDependencies(show, tasks, vs);
      CompletionNeedsNoCycle(show, tasks, vs);
    } else if UniqueIds(tasks) && DependenciesExist(show, tasks) {
      FewCycles(show, tasks, vs);
      CyclesEvolve(show, tasks, vs);
      forall i | 0 <= i < |after| ensures after[i].status == PENDING || after[i].status == COMPLETE {
        assert TaskEvolved(show, tasks[i], after[i]);
      }
      var i :| 0 <= i < |after| && after[i].status != COMPLETE;
      assert StuckAt(after, after[i].id);
      var p := StuckMeansCycle(show, tasks, after, after[i].id);
    }
  }
}
