/** Picking the next task and running one cycle over the queue file. */
module Scheduler {
  import opened Values
  import opened CanonicalJson
  import opened MissionQueue
  import JournalDisk

  const PENDING := "pending"
  const COMPLETE := "complete"
  const FAILED := "failed"

  /** `str(item)`; `show` prints what is no text. */
  function Printed(show: Json -> string, j: Json): string {
    if j.Text? then j.s else show(j)
  }

  function AllPrinted(show: Json -> string, items: seq<Json>): (r: seq<string>)
    ensures |r| == |items| && forall i :: 0 <= i < |r| ==> r[i] == Printed(show, items[i])
  {
    seq(|items|, i requires 0 <= i < |items| => Printed(show, items[i]))
  }

  /** `_dependency_ids`. */
  function Deps(show: Json -> string, t: Task): seq<string> {
    if "depends_on" !in t.metadata || t.metadata["depends_on"] == Null then []
    else if t.metadata["depends_on"].Array? then AllPrinted(show, t.metadata["depends_on"].items)
    else [Printed(show, t.metadata["depends_on"])]
  }

  /** The first task of that id exists and is complete. */
  predicate Met(tasks: seq<Task>, dep: string) {
    var i := Find(tasks, dep);
    i < |tasks| && tasks[i].status == COMPLETE
  }

  predicate CanRun(show: Json -> string, tasks: seq<Task>, t: Task) {
    var i := Find(tasks, t.id);
    var resolved := if i < |tasks| then tasks[i] else t;
    resolved.status == PENDING && forall d :: d in Deps(show, resolved) ==> Met(tasks, d)
  }

  predicate IsReady(show: Json -> string, tasks: seq<Task>, i: nat)
    requires i < |tasks|
  {
    tasks[i].status == PENDING && CanRun(show, tasks, tasks[i])
  }

  /** The first task that is pending and can run, or the length of the queue. */
  function NextFrom(show: Json -> string, tasks: seq<Task>, from: nat): (i: nat)
    requires from <= |tasks|
    ensures from <= i <= |tasks| && (i < |tasks| ==> IsReady(show, tasks, i))
    ensures forall j :: from <= j < i ==> !IsReady(show, tasks, j)
    decreases |tasks| - from
  {
    if from == |tasks| || IsReady(show, tasks, from) then from else NextFrom(show, tasks, from + 1)
  }

  function Next(show: Json -> string, tasks: seq<Task>): nat {
    NextFrom(show, tasks, 0)
  }

  // ------------------------------------------- the same, on the task's own words

  ghost predicate FirstWith(tasks: seq<Task>, id: string, j: int) {
    0 <= j < |tasks| && tasks[j].id == id && forall k :: 0 <= k < j ==> tasks[k].id != id
  }

  ghost predicate Done(tasks: seq<Task>, id: string) {
    exists j :: FirstWith(tasks, id, j) && tasks[j].status == "complete"
  }

  /** The task's entry on what it depends on names this id. */
  ghost predicate WaitsFor(show: Json -> string, t: Task, id: string) {
    "depends_on" in t.metadata &&
      match t.metadata["depends_on"]
      case Null => false
      case Text(s) => id == s
      case Array(items) => exists k :: 0 <= k < |items| && id == if items[k].Text? then items[k].s else show(items[k])
      case other => id == show(other)
  }

  /** Pending, as is the first task of its id, and everything that this one waits for is complete. */
  ghost predicate MayStart(show: Json -> string, tasks: seq<Task>, i: int) {
    && 0 <= i < |tasks| && tasks[i].status == "pending"
    && exists j :: FirstWith(tasks, tasks[i].id, j) && tasks[j].status == "pending"
         && forall id :: WaitsFor(show, tasks[j], id) ==> Done(tasks, id)
  }

  lemma FindIsFirst(tasks: seq<Task>, id: string)
    ensures forall j :: FirstWith(tasks, id, j) <==> j == Find(tasks, id) < |tasks|
  {}

  lemma DepsAreWaitedFor(show: Json -> string, t: Task, id: string)
    ensures id in Deps(show, t) <==> WaitsFor(show, t, id)
  {
    if "depends_on" in t.metadata && t.metadata["depends_on"].Array? {
      var items, deps := t.metadata["depends_on"].items, Deps(show, t);
      if id in deps {
        var k :| 0 <= k < |deps| && deps[k] == id;
        assert id == if items[k].Text? then items[k].s else show(items[k]);
      }
      if WaitsFor(show, t, id) {
        var k :| 0 <= k < |items| && id == if items[k].Text? then items[k].s else show(items[k]);
        assert deps[k] == id;
      }
    }
  }

  lemma ReadyMayStart(show: Json -> string, tasks: seq<Task>, i: nat)
    requires i < |tasks|
    ensures IsReady(show, tasks, i) <==> MayStart(show, tasks, i)
  {
    hide Deps, WaitsFor;
    var j := Find(tasks, tasks[i].id);
    FindIsFirst(tasks, tasks[i].id);
    forall id ensures id in Deps(show, tasks[j]) <==> WaitsFor(show, tasks[j], id) {
      DepsAreWaitedFor(show, tasks[j], id);
    }
    forall id ensures Met(tasks, id) <==> Done(tasks, id) {
      FindIsFirst(tasks, id);
    }
    hide FirstWith, Done, Met;
  }

  /** The task picked is the first that may start, and none is picked only where none may. */
  lemma NextIsFirstToStart(show: Json -> string, tasks: seq<Task>)
    ensures var i := Next(show, tasks);
            && (i < |tasks| ==> MayStart(show, tasks, i))
            && forall k :: 0 <= k < |tasks| && MayStart(show, tasks, k) ==> i <= k
  {
    hide IsReady, MayStart;
    forall k | 0 <= k < |tasks| ensures IsReady(show, tasks, k) <==> MayStart(show, tasks, k) {
      ReadyMayStart(show, tasks, k);
    }
  }

  /** What the verifier says of a task, and the value that is stored with it. */
  datatype Verdict = Pass(result: Json) | Fail(details: Json)

  function Settled(tasks: seq<Task>, id: string, v: Verdict): seq<Task> {
    match v
    case Pass(result) => Mark(tasks, id, COMPLETE, "result", result)
    case Fail(details) => Mark(tasks, id, FAILED, "error", details)
  }

  /** One cycle over the tasks. */
  function Cycle(show: Json -> string, tasks: seq<Task>, v: Verdict): seq<Task> {
    var i := Next(show, tasks);
    if i < |tasks| then Settled(tasks, tasks[i].id, v) else tasks
  }

  class SchedulerState {
    const file: QueueFile
    const show: Json -> string
    var queue: ExecutionQueue

    constructor (file: QueueFile, show: Json -> string, queue: ExecutionQueue)
      ensures this.file == file && this.show == show && this.queue == queue
    {
      this.file, this.show, this.queue := file, show, queue;
    }

    method FindTask(id: string) returns (r: Option<Task>)
      ensures r == if Find(queue.tasks, id) < |queue.tasks| then Some(queue.tasks[Find(queue.tasks, id)]) else None
    {
      for i := 0 to |queue.tasks|
        invariant forall j :: 0 <= j < i ==> queue.tasks[j].id != id
      {
        if queue.tasks[i].id == id {
          return Some(queue.tasks[i]);
        }
      }
      return None;
    }

    /** `can_execute` looks the task up by its id first. */
    method CanExecute(t: Task) returns (ok: bool)
      ensures ok <==> CanRun(show, queue.tasks, t)
    {
      var found := FindTask(t.id);
      var resolved := if found.Some? then found.value else t;
      if resolved.status != PENDING {
        return false;
      }
      var deps := Deps(show, resolved);
      for i := 0 to |deps|
        invariant forall j :: 0 <= j < i ==> Met(queue.tasks, deps[j])
      {
        var dependency := FindTask(deps[i]);
        if dependency.None? || dependency.value.status != COMPLETE {
          assert deps[i] in deps && !Met(queue.tasks, deps[i]);
          return false;
        }
      }
      return true;
    }

    method NextTask() returns (r: Option<Task>)
      ensures r == if Next(show, queue.tasks) < |queue.tasks| then Some(queue.tasks[Next(show, queue.tasks)]) else None
      ensures r.Some? ==> exists i :: MayStart(show, queue.tasks, i) && r.value == queue.tasks[i]
                            && forall k :: 0 <= k < i ==> !MayStart(show, queue.tasks, k)
      ensures r.None? ==> forall k :: !MayStart(show, queue.tasks, k)
    {
      NextIsFirstToStart(show, queue.tasks);
      hide MayStart;
      for i := 0 to |queue.tasks|
        invariant Next(show, queue.tasks) == NextFrom(show, queue.tasks, i)
      {
        if queue.tasks[i].status == PENDING {
          var ok := CanExecute(queue.tasks[i]);
          if ok {
            return Some(queue.tasks[i]);
          }
        }
      }
      return None;
    }

    method MissionComplete() returns (ok: bool)
      ensures ok <==> AllComplete(queue.tasks)
    {
      for i := 0 to |queue.tasks|
        invariant forall j :: 0 <= j < i ==> queue.tasks[j].status == COMPLETE
      {
        if queue.tasks[i].status != COMPLETE {
          return false;
        }
      }
      return true;
    }
  }

  predicate AllComplete(tasks: seq<Task>) {
    forall i :: 0 <= i < |tasks| ==> tasks[i].status == COMPLETE
  }

  datatype Report = Raised | Empty | Ran(taskId: string, verdict: Verdict)

  /** The task that a cycle on this file would run. */
  function Picked(show: Json -> string, f: File): Option<Task> {
    if Loaded(f).None? then None
    else
      var tasks := Loaded(f).value.0;
      if Next(show, tasks) < |tasks| then Some(tasks[Next(show, tasks)]) else None
  }

  /** The file after a cycle, as a value. */
  function FileAfter(show: Json -> string, f: File, v: Verdict): File {
    if Picked(show, f).None? then f
    else Mission(f.missionId, Dicts(Settled(Loaded(f).value.0, Picked(show, f).value.id, v)))
  }

  /**
   `run_once`: load, pick, execute, verify, mark, save. What executor, worker and
   verifier come to is the verdict, or None where one of them raises.
   */
  method RunOnce(file: QueueFile, show: Json -> string, v: Option<Verdict>) returns (r: Report)
    modifies file
    ensures file.content == if v.Some? then FileAfter(show, old(file.content), v.value) else old(file.content)
    ensures r ==
      if Loaded(old(file.content)).None? then Raised
      else if Picked(show, old(file.content)).None? then Empty
      else if v.None? then Raised
      else Ran(Picked(show, old(file.content)).value.id, v.value)
  {
    hide AllLoadable, Loadable, FromDict, ToDict, Mark, NextFrom, IsReady, JournalDisk.Strip;
    var loaded := Load(file);
    if loaded.None? {
      return Raised;
    }
    var scheduler := new SchedulerState(file, show, loaded.value);
    var task := scheduler.NextTask();
    if task.None? {
      return Empty;
    }
    if v.None? {
      return Raised;
    }
    var queue := scheduler.queue;
    match v.value {
      case Pass(result) =>
        var _ := queue.UpdateStatus(task.value.id, COMPLETE, "result", result);
      case Fail(details) =>
        var _ := queue.UpdateStatus(task.value.id, FAILED, "error", details);
    }
    BlankIsNotAnId(file.content);
    var _ := queue.Save(file);
    var _ := queue.Save(file);
    return Ran(task.value.id, v.value);
  }

  lemma BlankIsNotAnId(f: File)
    ensures Loaded(f).Some? && f.Mission? ==> f.missionId != ""
  {}
}
