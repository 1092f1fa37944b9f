/**
 The mission queue: tasks kept in a file as dictionaries, loaded into memory,
 updated in place by the first match on their id, and saved back whole.
 */
module MissionQueue {
  import opened Values
  import opened CanonicalJson
  import JournalDisk

  type Dict = map<string, Json>

  datatype Task = Task(id: string, name: string, status: string, metadata: Dict)

  datatype File = Missing | Mission(missionId: string, items: seq<Dict>)

  const OWN_KEYS: set<string> := {"task_id", "task_type", "status"}

  const REQUIRED: set<string> :=
    {"task_id", "task_type", "dependencies", "status", "success_condition", "allowed_files", "evidence"}

  predicate Filled(j: Json) {
    j.Text? && JournalDisk.Strip(j.s) != ""
  }

  predicate Loadable(item: Dict) {
    && REQUIRED <= item.Keys && "id" !in item && "name" !in item
    && Filled(item["task_id"]) && Filled(item["task_type"]) && Filled(item["status"]) && Filled(item["success_condition"])
    && item["dependencies"].Array? && item["allowed_files"].Array? && item["evidence"].Object?
  }

  function FromDict(item: Dict): Task
    requires Loadable(item)
  {
    var rest := item - OWN_KEYS;
    Task(item["task_id"].s, item["task_type"].s, item["status"].s,
         if "depends_on" in rest then rest else rest["depends_on" := rest["dependencies"]])
  }

  /** The task's own fields first; its metadata may overwrite them. */
  function ToDict(t: Task): Dict {
    map["task_id" := Text(t.id), "task_type" := Text(t.name), "status" := Text(t.status)] + t.metadata
  }

  predicate AllLoadable(items: seq<Dict>) {
    forall i :: 0 <= i < |items| ==> Loadable(items[i])
  }

  function Tasks(items: seq<Dict>): (r: seq<Task>)
    requires AllLoadable(items)
    ensures |r| == |items| && forall i :: 0 <= i < |r| ==> r[i] == FromDict(items[i])
  {
    seq(|items|, i requires 0 <= i < |items| => FromDict(items[i]))
  }

  function Dicts(tasks: seq<Task>): (r: seq<Dict>)
    ensures |r| == |tasks| && forall i :: 0 <= i < |r| ==> r[i] == ToDict(tasks[i])
  {
    seq(|tasks|, i requires 0 <= i < |tasks| => ToDict(tasks[i]))
  }

  /** `_find_task` and `_update_status` take the first match. */
  function Find(tasks: seq<Task>, id: string): (i: nat)
    ensures i <= |tasks| && (i < |tasks| ==> tasks[i].id == id)
    ensures forall j :: 0 <= j < i ==> tasks[j].id != id
  {
    if tasks == [] || tasks[0].id == id then 0 else 1 + Find(tasks[1..], id)
  }

  function Marked(t: Task, status: string, key: string, value: Json): Task {
    Task(t.id, t.name, status, t.metadata[key := value])
  }

  function Mark(tasks: seq<Task>, id: string, status: string, key: string, value: Json): (r: seq<Task>)
    ensures |r| == |tasks|
  {
    var i := Find(tasks, id);
    if i < |tasks| then tasks[i := Marked(tasks[i], status, key, value)] else tasks
  }

  class QueueFile {
    var content: File

    constructor (content: File)
      ensures this.content == content
    {
      this.content := content;
    }
  }

  class ExecutionQueue {
    var tasks: seq<Task>
    var missionId: Option<string>

    constructor (tasks: seq<Task>, missionId: Option<string>)
      ensures this.tasks == tasks && this.missionId == missionId
    {
      this.tasks, this.missionId := tasks, missionId;
    }

    /** `_update_status`: None where no task has the id. */
    method UpdateStatus(id: string, status: string, key: string, value: Json) returns (r: Option<Task>)
      modifies this`tasks
      ensures tasks == Mark(old(tasks), id, status, key, value)
      ensures r == if Find(old(tasks), id) < |old(tasks)| then Some(tasks[Find(old(tasks), id)]) else None
    {
      for i := 0 to |tasks|
        invariant tasks == old(tasks)
        invariant forall j :: 0 <= j < i ==> tasks[j].id != id
      {
        if tasks[i].id == id {
          var updated := Marked(tasks[i], status, key, value);
          tasks := tasks[i := updated];
          return Some(updated);
        }
      }
      return None;
    }

    /** `save` needs a mission id. */
    method Save(file: QueueFile) returns (ok: bool)
      modifies file
      ensures ok <==> missionId.Some? && missionId.value != ""
      ensures file.content == if ok then Mission(missionId.value, Dicts(tasks)) else old(file.content)
    {
      if missionId.None? || missionId.value == "" {
        return false;
      }
      file.content := Mission(missionId.value, Dicts(tasks));
      return true;
    }
  }

  /** What `load` makes of a file; None where it raises. */
  function Loaded(f: File): Option<(seq<Task>, Option<string>)> {
    if f.Missing? then Some(([], None))
    else if JournalDisk.Strip(f.missionId) == "" || !AllLoadable(f.items) then None
    else Some((Tasks(f.items), Some(f.missionId)))
  }

  method Load(file: QueueFile) returns (r: Option<ExecutionQueue>)
    ensures r.Some? <==> Loaded(file.content).Some?
    ensures r.Some? ==> fresh(r.value) && (r.value.tasks, r.value.missionId) == Loaded(file.content).value
  {
    if file.content.Missing? {
      var empty := new ExecutionQueue([], None);
      return Some(empty);
    }
    if JournalDisk.Strip(file.content.missionId) == "" {
      return None;
    }
    var tasks: seq<Task> := [];
    var items := file.content.items;
    for i := 0 to |items|
      invariant forall j :: 0 <= j < i ==> Loadable(items[j])
      invariant |tasks| == i && forall j :: 0 <= j < i ==> tasks[j] == FromDict(items[j])
    {
      if !Loadable(items[i]) {
        return None;
      }
      tasks := tasks + [FromDict(items[i])];
    }
    assert tasks == Tasks(items);
    var queue := new ExecutionQueue(tasks, Some(file.content.missionId));
    return Some(queue);
  }

  // ------------------------------------------------------------- round trip

  /** The shape of every task that was loaded, whatever was marked on it since. */
  predicate WellShaped(t: Task) {
    && t.metadata.Keys !! OWN_KEYS && "id" !in t.metadata && "name" !in t.metadata
    && {"dependencies", "success_condition", "allowed_files", "evidence", "depends_on"} <= t.metadata.Keys
    && Filled(t.metadata["success_condition"])
    && t.metadata["dependencies"].Array? && t.metadata["allowed_files"].Array? && t.metadata["evidence"].Object?
    && JournalDisk.Strip(t.id) != "" && JournalDisk.Strip(t.name) != "" && JournalDisk.Strip(t.status) != ""
  }

  lemma LoadingShapes(item: Dict)
    requires Loadable(item)
    ensures WellShaped(FromDict(item))
  {
    hide JournalDisk.Strip;
  }

  lemma MarkingShapes(t: Task, status: string, key: string, value: Json)
    requires WellShaped(t) && JournalDisk.Strip(status) != "" && key in {"result", "error"}
    ensures WellShaped(Marked(t, status, key, value))
  {
    hide JournalDisk.Strip;
  }

  lemma TaskRoundTrip(t: Task)
    requires WellShaped(t)
    ensures Loadable(ToDict(t)) && FromDict(ToDict(t)) == t
  {
    hide JournalDisk.Strip;
    assert ToDict(t) - OWN_KEYS == t.metadata;
  }

  /** Saving a queue and loading it again gives the queue back. */
  lemma SaveLoad(tasks: seq<Task>, missionId: string)
    requires forall i :: 0 <= i < |tasks| ==> WellShaped(tasks[i])
    requires JournalDisk.Strip(missionId) != ""
    ensures Loaded(Mission(missionId, Dicts(tasks))) == Some((tasks, Some(missionId)))
  {
    hide JournalDisk.Strip, Loadable, FromDict, ToDict, WellShaped;
    forall i | 0 <= i < |tasks| ensures Loadable(Dicts(tasks)[i]) && FromDict(Dicts(tasks)[i]) == tasks[i] {
      TaskRoundTrip(tasks[i]);
    }
    assert Tasks(Dicts(tasks)) == tasks;
  }
}
