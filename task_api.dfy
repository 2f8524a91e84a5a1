// Endpoints for tasks: creating, editing, deleting, scheduling and unscheduling missions,
// cancelling a run, and paging through the run records. The table of tasks is a map from ID
// to row; responses carry the message key that the translation layer turns into text.
module TaskApi {
  import opened Wrappers
  import opened TaskRunner

  /** A mission row as a zero-valued struct holds it: no ID, status 0, no configuration. */
  const ZeroTask := Task("", "", "", "null", 0, false, "", None, None, None, None)

  class TaskTable {
    var tasks: map<string, Task>

    /** Every row is stored under its own, non-empty ID. */
    predicate Valid()
      reads this
    {
      forall k :: k in tasks ==> k != "" && tasks[k].id == k
    }

    constructor()
      ensures Valid() && tasks == map[]
    {
      tasks := map[];
    }

    /** AddTask: a cron expression other than "manual" must parse; a new task is
        saved but unscheduled (status 0) under a fresh ID. `parses` is cron.ParseStandard and
        `createOk` whether the insert succeeds. */
    method AddTask(name: string, cron: string, data: string, parses: string -> bool, newId: string, createOk: bool)
      returns (resp: Option<string>, err: Option<string>)
      requires Valid()
      ensures Valid()
      requires newId != "" && newId !in tasks
      modifies this
      ensures cron != "manual" && !parses(cron) ==>
        err == Some("invalid cron expression") && resp.None? && tasks == old(tasks)
      ensures (cron == "manual" || parses(cron)) && !createOk ==>
        err == Some("failed to create task") && resp.None? && tasks == old(tasks)
      ensures (cron == "manual" || parses(cron)) && createOk ==>
        err.None? && resp == Some("success")
        && tasks == old(tasks)[newId := ZeroTask.(id := newId, name := name, cron := cron, data := data)]
    {
      if cron != "manual" && !parses(cron) {
        return None, Some("invalid cron expression");
      }
      var mission := ZeroTask.(id := newId, name := name, cron := cron, data := data);
      if !createOk {
        return None, Some("failed to create task");
      }
      tasks := tasks[newId := mission];
      return Some("success"), None;
    }

    /** DeleteTask: an unknown task and a scheduled task (status 1) cannot be deleted. */
    method DeleteTask(id: string, deleteOk: bool) returns (resp: Option<string>, err: Option<string>)
      requires Valid()
      ensures Valid()
      modifies this
      ensures id !in old(tasks) ==> err == Some("task not found") && tasks == old(tasks)
      ensures id in old(tasks) && old(tasks)[id].status == 1 ==>
        err == Some("cannot delete in task scheduling") && tasks == old(tasks)
      ensures id in old(tasks) && old(tasks)[id].status != 1 && !deleteOk ==>
        err == Some("failed to delete task") && tasks == old(tasks)
      ensures err.None? <==> id in old(tasks) && old(tasks)[id].status != 1 && deleteOk
      ensures err.None? ==> resp == Some("success") && tasks == old(tasks) - {id}
    {
      if id !in tasks {
        return None, Some("task not found");
      }
      if tasks[id].status == 1 {
        return None, Some("cannot delete in task scheduling");
      }
      if !deleteOk {
        return None, Some("failed to delete task");
      }
      tasks := tasks - {id};
      return Some("success"), None;
    }

    /** UpdateTask: the cron expression is checked before looking the task up; a scheduled
        task cannot be edited; an edit replaces name, cron and configuration and puts the
        task back to status 0. */
    method UpdateTask(id: string, name: string, cron: string, data: string, parses: string -> bool, saveOk: bool)
      returns (resp: Option<string>, err: Option<string>)
      requires Valid()
      ensures Valid()
      modifies this
      ensures cron != "manual" && !parses(cron) ==> err == Some("invalid cron expression") && tasks == old(tasks)
      ensures (cron == "manual" || parses(cron)) && id !in old(tasks) ==>
        err == Some("task not found") && tasks == old(tasks)
      ensures (cron == "manual" || parses(cron)) && id in old(tasks) && old(tasks)[id].status == 1 ==>
        err == Some("cannot edit in task scheduling") && tasks == old(tasks)
      ensures (cron == "manual" || parses(cron)) && id in old(tasks) && old(tasks)[id].status != 1 && !saveOk ==>
        err == Some("failed to edit task") && tasks == old(tasks)
      ensures err.None? <==> (cron == "manual" || parses(cron)) && id in old(tasks) && old(tasks)[id].status != 1 && saveOk
      ensures err.None? ==>
        resp == Some("success")
        && tasks == old(tasks)[id := old(tasks)[id].(name := name, cron := cron, data := data, status := 0)]
    {
      if cron != "manual" && !parses(cron) {
        return None, Some("invalid cron expression");
      }
      if id !in tasks {
        return None, Some("task not found");
      }
      var m := tasks[id];
      if m.status == 1 {
        return None, Some("cannot edit in task scheduling");
      }
      m := m.(name := name, cron := cron, data := data, status := 0);
      if !saveOk {
        return None, Some("failed to edit task");
      }
      tasks := tasks[id := m];
      return Some("success"), None;
    }

    /** RunTask (the endpoint): schedules a mission with cron. Manual missions and missions
        already scheduled are refused; a failed status save or scheduling leaves the row as
        it was. */
    method RunTask(id: string, sched: Scheduler, parses: string -> bool, saveOk: bool, commitOk: bool)
      returns (resp: Option<string>, err: Option<string>)
      requires Valid()
      ensures Valid()
      modifies this, sched
      ensures id !in old(tasks) ==> err == Some("task not found")
      ensures id in old(tasks) && old(tasks)[id].cron == "manual" ==> err == Some("manual task cannot be scheduled")
      ensures id in old(tasks) && old(tasks)[id].cron != "manual" && old(tasks)[id].status == 1 ==>
        err == Some("task already scheduling")
      ensures id in old(tasks) && old(tasks)[id].cron != "manual" && old(tasks)[id].status != 1 && !saveOk ==>
        err == Some("failed to update task status")
      ensures (id in old(tasks) && old(tasks)[id].cron != "manual" && old(tasks)[id].status != 1 && saveOk
               && !parses(old(tasks)[id].cron)) ==> err == Some("任务的表达式无效")
      ensures !(id in old(tasks) && old(tasks)[id].cron != "manual" && old(tasks)[id].status != 1 && saveOk
                && parses(old(tasks)[id].cron)) ==>
        err.Some? && tasks == old(tasks) && sched.entries == old(sched.entries)
      ensures (id in old(tasks) && old(tasks)[id].cron != "manual" && old(tasks)[id].status != 1 && saveOk
               && parses(old(tasks)[id].cron)) ==>
        tasks == old(tasks)[id := old(tasks)[id].(status := 1, isRunning := false, entryId := Some(old(sched.next)))]
        && sched.entries == old(sched.entries)[old(sched.next) := id]
        && err == (if commitOk then None else Some("system error"))
      ensures err.None? ==> resp == Some("success")
    {
      if id !in tasks {
        return None, Some("task not found");
      }
      var m := tasks[id];
      if m.cron == "manual" {
        return None, Some("manual task cannot be scheduled");
      }
      if m.status == 1 {
        return None, Some("task already scheduling");
      }
      m := m.(status := 1);
      if !saveOk {
        return None, Some("failed to update task status");
      }
      var scheduled, scheduleErr := ScheduleMission(sched, m, parses);
      if scheduleErr.Some? {
        return None, scheduleErr;
      }
      tasks := tasks[id := scheduled];
      if !commitOk {
        return None, Some("system error");
      }
      return Some("success"), None;
    }

    /** StopTask as written: the row is saved on every path, so for an unknown ID the
        zero-valued struct is saved, which inserts an empty task under a fresh ID `newId`. */
    method StopTaskAsWritten(id: string, sched: Scheduler, newId: string) returns (resp: Option<string>, err: Option<string>)
      requires Valid()
      ensures Valid()
      requires newId != "" && newId !in tasks
      modifies this, sched
      ensures id !in old(tasks) ==>
        err == Some("unable to stop scheduling task has not started yet") && tasks == old(tasks)[newId := ZeroTask.(id := newId)]
        && sched.entries == old(sched.entries)
      ensures id in old(tasks) && old(tasks)[id].status != 1 ==>
        err == Some("unable to stop scheduling task has not started yet") && tasks == old(tasks)
        && sched.entries == old(sched.entries)
      ensures id in old(tasks) && old(tasks)[id].status == 1 ==>
        err.None? && resp == Some("success") && tasks == old(tasks)[id := old(tasks)[id].(status := 0, entryId := None)]
        && sched.entries == (if old(tasks)[id].entryId.Some? then old(sched.entries) - {old(tasks)[id].entryId.value}
                             else old(sched.entries))
    {
      if id !in tasks {
        tasks := tasks[newId := ZeroTask.(id := newId)];
        return None, Some("unable to stop scheduling task has not started yet");
      }
      var m := tasks[id];
      if m.status != 1 {
        return None, Some("unable to stop scheduling task has not started yet");
      }
      m := CancelMission(sched, m, 0);
      tasks := tasks[id := m];
      return Some("success"), None;
    }

    /** StopTask as intended: only a scheduled task is unscheduled (status 0, no cron entry),
        and nothing is written otherwise. */
    method StopTask(id: string, sched: Scheduler) returns (resp: Option<string>, err: Option<string>)
      requires Valid()
      ensures Valid()
      modifies this, sched
      ensures err.None? <==> id in old(tasks) && old(tasks)[id].status == 1
      ensures err.Some? ==>
        err == Some("unable to stop scheduling task has not started yet") && tasks == old(tasks)
        && sched.entries == old(sched.entries)
      ensures err.None? ==>
        resp == Some("success") && tasks == old(tasks)[id := old(tasks)[id].(status := 0, entryId := None)]
        && sched.entries == (if old(tasks)[id].entryId.Some? then old(sched.entries) - {old(tasks)[id].entryId.value}
                             else old(sched.entries))
    {
      if id !in tasks || tasks[id].status != 1 {
        return None, Some("unable to stop scheduling task has not started yet");
      }
      var m := CancelMission(sched, tasks[id], 0);
      tasks := tasks[id := m];
      return Some("success"), None;
    }
  }

  /** Stopping an ID that names no task: as written the table gains an empty task, as intended
      it is left alone. */
  method StopUnknownTask() returns (grownAsWritten: bool, grownIntended: bool)
    ensures grownAsWritten && !grownIntended
  {
    var sched := new Scheduler();
    var a := new TaskTable();
    var _, _ := a.StopTaskAsWritten("no-such-id", sched, "fresh-id");
    grownAsWritten := |a.tasks| > 0;
    var b := new TaskTable();
    var _, _ := b.StopTask("no-such-id", sched);
    grownIntended := |b.tasks| > 0;
  }

  /** CancelTaskRecord: only a run in progress (record status 0) can be cancelled. */
  method CancelTaskRecord(runs: Runs, id: string) returns (resp: Option<string>, err: Option<string>)
    modifies runs
    ensures id !in old(runs.records) ==> err == Some("task record not found") && runs.manualCancel == old(runs.manualCancel)
    ensures id in old(runs.records) && old(runs.records)[id].status != 0 ==>
      err == Some("task record already finish") && runs.manualCancel == old(runs.manualCancel)
    ensures id in old(runs.records) && old(runs.records)[id].status == 0 && id !in old(runs.running) ==>
      err == Some("任务不存在或状态不可停止") && runs.manualCancel == old(runs.manualCancel)
    ensures err.None? <==> id in old(runs.records) && old(runs.records)[id].status == 0 && id in old(runs.running)
    ensures err.None? ==>
      resp == Some("the task is being forcibly terminated. Please refresh later to check the status")
      && runs.manualCancel == old(runs.manualCancel)[id := "cancel"]
    ensures runs.records == old(runs.records) && runs.running == old(runs.running)
  {
    if id !in runs.records {
      return None, Some("task record not found");
    }
    if runs.records[id].status != 0 {
      return None, Some("task record already finish");
    }
    err := runs.CancelMissionRecord(id);
    if err.Some? {
      return None, err;
    }
    return Some("the task is being forcibly terminated. Please refresh later to check the status"), None;
  }

  // ---------------------------------------------------------------------------------------
  // The run-record list

  /** The records that pass the list's filters: an ID filter unless the ID is empty, and a
      status filter unless the status is -1. `records` is in the list's order (newest first). */
  function Filtered(records: seq<TaskRecord>, id: string, status: int): (r: seq<TaskRecord>)
    ensures |r| <= |records|
    decreases |records|
  {
    if |records| == 0 then []
    else
      var head := records[0];
      var rest := Filtered(records[1..], id, status);
      if (id == "" || head.id == id) && (status == -1 || head.status == status) then [head] + rest else rest
  }

  /** A record is listed exactly when it is one of the records and passes both filters. */
  lemma {:induction false} FilteredMembers(records: seq<TaskRecord>, id: string, status: int)
    ensures forall x :: x in Filtered(records, id, status) <==>
      x in records && (id == "" || x.id == id) && (status == -1 || x.status == status)
    decreases |records|
  {
    if |records| > 0 {
      FilteredMembers(records[1..], id, status);
      assert records == [records[0]] + records[1..];
    }
  }

  /** With neither filter set, every record is listed in order. */
  lemma {:induction false} UnfilteredAll(records: seq<TaskRecord>)
    ensures Filtered(records, "", -1) == records
    decreases |records|
  {
    if |records| > 0 {
      UnfilteredAll(records[1..]);
      assert records == [records[0]] + records[1..];
    }
  }

  /** One page: gorm's Offset((pageNo - 1) * pageSize), applied only when positive, and
      Limit(pageSize), applied only when not negative. */
  function Page(list: seq<TaskRecord>, pageNo: int, pageSize: int): (page: seq<TaskRecord>)
    ensures pageSize >= 0 ==> |page| <= pageSize
    ensures |page| <= |list|
  {
    var offset := (pageNo - 1) * pageSize;
    var skipped := if offset <= 0 then list else if offset >= |list| then [] else list[offset..];
    if 0 <= pageSize < |skipped| then skipped[..pageSize] else skipped
  }

  /** Pages 1 to n of size s, one after the other, are the first n * s records: the pages
      neither overlap nor leave a gap. */
  lemma {:induction false} PagesTile(list: seq<TaskRecord>, size: int, n: nat)
    requires size > 0
    ensures Pages(list, size, n) == list[..if n * size <= |list| then n * size else |list|]
    decreases n
  {
    if n > 0 {
      PagesTile(list, size, n - 1);
      var lo := (n - 1) * size;
      var hi := n * size;
      assert hi == lo + size;
      var a := if lo <= |list| then lo else |list|;
      var b := if hi <= |list| then hi else |list|;
      assert Page(list, n, size) == list[a..b];
      assert list[..a] + list[a..b] == list[..b];
    }
  }

  /** Pages 1 to n, concatenated. */
  function Pages(list: seq<TaskRecord>, size: int, n: nat): seq<TaskRecord>
    decreases n
  {
    if n == 0 then [] else Pages(list, size, n - 1) + Page(list, n, size)
  }

  /** GetTaskRecordList: the number of records that pass the filters, and the requested page of them. */
  function RecordList(records: seq<TaskRecord>, id: string, status: int, pageNo: int, pageSize: int)
    : (r: (int, seq<TaskRecord>))
    ensures r.0 == |Filtered(records, id, status)|
    ensures forall x :: x in r.1 ==> x in records && (id == "" || x.id == id) && (status == -1 || x.status == status)
    ensures pageSize >= 0 ==> |r.1| <= pageSize
  {
    var list := Filtered(records, id, status);
    FilteredMembers(records, id, status);
    var page := Page(list, pageNo, pageSize);
    assert forall x :: x in page ==> x in list;
    (|list|, page)
  }
}
