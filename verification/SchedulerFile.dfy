/** What one cycle does to the mission file, entry by entry. */
module SchedulerFile {
  import opened Values
  import opened CanonicalJson
  import opened MissionQueue
  import opened Scheduler
  import JournalDisk

  /** What a task waits for, as its entry in the file says it. */
  function WaitList(item: Dict): Json
    requires "dependencies" in item
  {
    if "depends_on" in item then item["depends_on"] else item["dependencies"]
  }

  /** An entry as saving leaves it: it says explicitly what it waits for. */
  function Explicit(item: Dict): Dict
    requires "dependencies" in item
  {
    item["depends_on" := WaitList(item)]
  }

  /** An entry of a file that loads. */
  predicate WellFormed(item: Dict) {
    && {"task_id", "task_type", "dependencies", "status", "success_condition", "allowed_files", "evidence"} <= item.Keys
    && "id" !in item && "name" !in item
    && item["task_id"].Text? && JournalDisk.Strip(item["task_id"].s) != ""
    && item["task_type"].Text? && JournalDisk.Strip(item["task_type"].s) != ""
    && item["status"].Text? && JournalDisk.Strip(item["status"].s) != ""
    && item["success_condition"].Text? && JournalDisk.Strip(item["success_condition"].s) != ""
    && item["dependencies"].Array? && item["allowed_files"].Array? && item["evidence"].Object?
  }

  /** Loading fails exactly on a blank mission id and on an entry of another form. */
  lemma LoadsExactly(missionId: string, items: seq<Dict>)
    ensures Loaded(Mission(missionId, items)).Some? <==>
      JournalDisk.Strip(missionId) != "" && forall i :: 0 <= i < |items| ==> WellFormed(items[i])
    ensures Loaded(Missing) == Some(([], None))
  {
    hide JournalDisk.Strip;
    forall i | 0 <= i < |items| ensures Loadable(items[i]) <==> WellFormed(items[i]) {}
    hide Loadable, WellFormed;
  }

  /** What a loaded task is, word for word. */
  lemma LoadedTask(item: Dict)
    requires WellFormed(item)
    ensures Loadable(item)
    ensures var t := FromDict(item);
            && Text(t.id) == item["task_id"] && Text(t.name) == item["task_type"] && Text(t.status) == item["status"]
            && "depends_on" in t.metadata && t.metadata["depends_on"] == WaitList(item)
            && ToDict(t) == Explicit(item)
  {
    hide JournalDisk.Strip;
    var t := FromDict(item);
    assert t.metadata == (item - OWN_KEYS)["depends_on" := WaitList(item)];
    assert ToDict(t) == Explicit(item);
  }

  lemma LoadedTasks(f: File)
    requires f.Mission? && Loaded(f).Some?
    ensures forall i :: 0 <= i < |f.items| ==> WellFormed(f.items[i])
    ensures |Loaded(f).value.0| == |f.items|
    ensures forall i :: 0 <= i < |f.items| ==>
      Loadable(f.items[i]) && Loaded(f).value.0[i] == FromDict(f.items[i])
  {
    hide JournalDisk.Strip;
    LoadsExactly(f.missionId, f.items);
    hide WellFormed, Loadable, FromDict;
  }

  /** The first entry with that task id. */
  ghost predicate FirstEntry(items: seq<Dict>, id: Json, j: int) {
    && 0 <= j < |items| && "task_id" in items[j] && items[j]["task_id"] == id
    && forall k :: 0 <= k < j ==> "task_id" in items[k] && items[k]["task_id"] != id
  }

  /**
   A cycle that ran a task rewrites exactly one entry, the first with the id of the
   task: complete with the result, or failed with the details. Every other entry is as
   it was, its waiting list written out.
   */
  lemma CycleRewritesOneEntry(show: Json -> string, f: File, v: Verdict) returns (j: int)
    requires Picked(show, f).Some?
    ensures f.Mission? && FileAfter(show, f, v).Mission? && FileAfter(show, f, v).missionId == f.missionId
    ensures forall k :: 0 <= k < |f.items| ==> "dependencies" in f.items[k]
    ensures FirstEntry(f.items, Text(Picked(show, f).value.id), j)
    ensures var after := FileAfter(show, f, v).items;
            && |after| == |f.items|
            && (forall k :: 0 <= k < |after| && k != j ==> after[k] == Explicit(f.items[k]))
            && after[j] == match v
                 case Pass(result) => Explicit(f.items[j])["status" := Text("complete")]["result" := result]
                 case Fail(details) => Explicit(f.items[j])["status" := Text("failed")]["error" := details]
  {
    hide Loadable, FromDict, ToDict, Explicit, WellFormed, Next, Settled, Loaded;
    FileIsThere(f);
    PickedIsThere(show, f);
    LoadedTasks(f);
    var tasks, id := Loaded(f).value.0, Picked(show, f).value.id;
    j := Find(tasks, id);
    forall k | 0 <= k < |f.items| ensures Entry(f.items[k], tasks[k]) {
      LoadedEntry(f.items[k]);
    }
    SettledSize(tasks, id, v);
    forall k | 0 <= k < |tasks|
      ensures Dicts(Settled(tasks, id, v))[k] == if k == j then Verdicted(ToDict(tasks[k]), v) else ToDict(tasks[k])
    {
      SettledDict(tasks, id, v, k);
    }
    hide Picked;
  }

  function Verdicted(item: Dict, v: Verdict): Dict {
    match v
    case Pass(result) => item["status" := Text("complete")]["result" := result]
    case Fail(details) => item["status" := Text("failed")]["error" := details]
  }

  /** An entry and the task it was loaded into. */
  ghost predicate Entry(item: Dict, t: Task) {
    "dependencies" in item && "task_id" in item && Text(t.id) == item["task_id"] && ToDict(t) == Explicit(item)
    && t.metadata.Keys !! OWN_KEYS
  }

  lemma LoadedEntry(item: Dict)
    requires WellFormed(item)
    ensures Loadable(item) && Entry(item, FromDict(item))
  {
    LoadedTask(item);
    hide JournalDisk.Strip;
  }

  lemma FileIsThere(f: File)
    ensures Loaded(f).Some? && Loaded(f).value.0 != [] ==> f.Mission?
  {}

  lemma SettledSize(tasks: seq<Task>, id: string, v: Verdict)
    ensures |Settled(tasks, id, v)| == |tasks|
  {}

  lemma SettledDict(tasks: seq<Task>, id: string, v: Verdict, k: nat)
    requires Find(tasks, id) < |tasks| && k < |tasks| && tasks[k].metadata.Keys !! OWN_KEYS
    ensures |Settled(tasks, id, v)| == |tasks|
    ensures Dicts(Settled(tasks, id, v))[k]
         == if k == Find(tasks, id) then Verdicted(ToDict(tasks[k]), v) else ToDict(tasks[k])
  {
    MarkedDict(tasks[k], v);
    hide ToDict, Marked;
  }

  lemma PickedIsThere(show: Json -> string, f: File)
    requires Picked(show, f).Some?
    ensures Find(Loaded(f).value.0, Picked(show, f).value.id) < |Loaded(f).value.0|
  {
    hide Loaded;
  }

  lemma MarkedDict(t: Task, v: Verdict)
    requires t.metadata.Keys !! OWN_KEYS
    ensures match v
            case Pass(result) =>
              ToDict(Marked(t, COMPLETE, "result", result)) == ToDict(t)["status" := Text("complete")]["result" := result]
            case Fail(details) =>
              ToDict(Marked(t, FAILED, "error", details)) == ToDict(t)["status" := Text("failed")]["error" := details]
  {
    hide Marked;
    match v
    case Pass(result) => MarkedDictCase(t, "complete", "result", result);
    case Fail(details) => MarkedDictCase(t, "failed", "error", details);
  }

  lemma MarkedDictCase(t: Task, status: string, key: string, value: Json)
    requires t.metadata.Keys !! OWN_KEYS && key !in OWN_KEYS
    ensures ToDict(Marked(t, status, key, value)) == ToDict(t)["status" := Text(status)][key := value]
  {}
}
