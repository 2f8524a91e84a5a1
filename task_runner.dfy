// The mission runner: the cron-driven wrapper around a run (guard, `${name}` variable
// substitution, bookkeeping on the mission), scheduling and unscheduling with cron, and
// the run record of each execution with its manual cancellation.
module TaskRunner {
  import opened Wrappers
  import opened Text
  import opened Values

  /** A mission (a row of the table of tasks). `data` is the JSON text of its configuration;
      status 0 is saved, 1 scheduled, 2 failed. */
  datatype Task = Task(id: string, name: string, cron: string, data: string, status: int, isRunning: bool,
                       errMsg: string, lastRunTime: Option<int>, lastSuccessTime: Option<int>,
                       lastEndTime: Option<int>, entryId: Option<nat>)

  const SystemRun := "system"

  // ---------------------------------------------------------------------------------------
  // Placeholders

  /** A `${…}` match: "${", then anything but '}', then "}". */
  predicate IsPlaceholder(m: string)
  {
    |m| >= 3 && m[..2] == "${" && m[|m| - 1] == '}' && '}' !in m[2..|m| - 1]
  }

  /** The matches of `\$\{[^}]*}` in s, leftmost first and not overlapping. */
  function Placeholders(s: string): (ps: seq<string>)
    ensures forall k :: 0 <= k < |ps| ==> IsPlaceholder(ps[k])
    decreases |s|
  {
    if |s| < 2 then []
    else if s[0] == '$' && s[1] == '{' then
      match IndexOf(s[2..], '}')
      case Some(j) =>
        assert s[..j + 3][2..j + 2] == s[2..][..j];
        [s[..j + 3]] + Placeholders(s[j + 3..])
      case None => Placeholders(s[1..])
    else Placeholders(s[1..])
  }

  /** A match can start at i: "${" there and a '}' somewhere after it. */
  predicate Opens(s: string, i: nat)
  {
    i + 2 <= |s| && s[i] == '$' && s[i + 1] == '{' && '}' in s[i + 2..]
  }

  lemma OpensShift(s: string, i: nat)
    requires |s| > 0
    ensures Opens(s, i + 1) <==> Opens(s[1..], i)
  {
    if i + 3 <= |s| {
      assert s[i + 3..] == s[1..][i + 2..];
    }
  }

  /** A text has no placeholder exactly when no "${" in it is followed by a '}'. */
  lemma {:induction false} PlaceholdersEmpty(s: string)
    ensures Placeholders(s) == [] <==> forall i: nat :: !Opens(s, i)
    decreases |s|
  {
    if |s| < 2 {
      forall i: nat ensures !Opens(s, i) {}
    } else if s[0] == '$' && s[1] == '{' && IndexOf(s[2..], '}').Some? {
      assert Opens(s, 0);
    } else {
      PlaceholdersEmpty(s[1..]);
      assert !Opens(s, 0);
      forall i: nat ensures Opens(s, i + 1) <==> Opens(s[1..], i) {
        OpensShift(s, i);
      }
      if forall i: nat :: !Opens(s[1..], i) {
        forall i: nat ensures !Opens(s, i) {
          if i > 0 {
            OpensShift(s, i - 1);
          }
        }
      } else {
        var i: nat :| Opens(s[1..], i);
        OpensShift(s, i);
        assert Opens(s, i + 1);
      }
    }
  }

  /** Every match is a piece of the text. */
  lemma {:induction false} PlaceholdersOccur(s: string)
    ensures forall k :: 0 <= k < |Placeholders(s)| ==> Contains(s, Placeholders(s)[k])
    decreases |s|
  {
    if |s| >= 2 {
      if s[0] == '$' && s[1] == '{' && IndexOf(s[2..], '}').Some? {
        var j := IndexOf(s[2..], '}').value;
        var rest := Placeholders(s[j + 3..]);
        PlaceholdersOccur(s[j + 3..]);
        assert Placeholders(s) == [s[..j + 3]] + rest;
        ContainsAt(s, s[..j + 3], 0);
        forall k | 0 < k < |Placeholders(s)|
          ensures Contains(s, Placeholders(s)[k])
        {
          ContainsSuffix(s, j + 3, rest[k - 1]);
        }
      } else {
        PlaceholdersOccur(s[1..]);
        forall k | 0 <= k < |Placeholders(s)|
          ensures Contains(s, Placeholders(s)[k])
        {
          ContainsSuffix(s, 1, Placeholders(s)[k]);
        }
      }
    }
  }

  /** The variable a placeholder names: "${" and "}" trimmed off. */
  function VariableName(m: string): (name: string)
    ensures IsPlaceholder(m) ==> m == "${" + name + "}" && '}' !in name
  {
    TrimSuffix(TrimPrefix(m, "${"), "}")
  }

  /** Two placeholders naming the same variable are the same placeholder. */
  lemma VariableNameInjective(m: string, m': string)
    requires IsPlaceholder(m) && IsPlaceholder(m') && VariableName(m) == VariableName(m')
    ensures m == m'
  {
  }

  // ---------------------------------------------------------------------------------------
  // Resolution and substitution

  /** The variable values gathered so far, the names looked up in order, and the placeholder
      whose lookup failed, if one did. */
  datatype Resolution = Resolution(values: map<string, string>, asked: seq<string>, failed: Option<string>)

  /** The resolution loop over the matches: each placeholder not yet resolved is looked up
      by its name, and the first failed lookup ends the loop. */
  function Resolve(matches: seq<string>, resolve: string -> Result<string>): Resolution
    decreases |matches|
  {
    if |matches| == 0 then Resolution(map[], [], None)
    else ResolveNext(Resolve(matches[..|matches| - 1], resolve), matches[|matches| - 1], resolve)
  }

  /** One turn of the resolution loop, on match `m`. */
  function ResolveNext(prev: Resolution, m: string, resolve: string -> Result<string>): Resolution
  {
    if prev.failed.Some? || m in prev.values then prev
    else match resolve(VariableName(m))
      case Err(_) => Resolution(prev.values, prev.asked + [VariableName(m)], Some(m))
      case Ok(v) => Resolution(prev.values[m := v], prev.asked + [VariableName(m)], None)
  }

  lemma ResolvePrefix(matches: seq<string>, i: nat, resolve: string -> Result<string>)
    requires i < |matches|
    ensures Resolve(matches[..i + 1], resolve) == ResolveNext(Resolve(matches[..i], resolve), matches[i], resolve)
  {
    assert matches[..i + 1][..i] == matches[..i];
  }

  /** Each distinct placeholder is looked up exactly once: after a successful resolution
      the values cover exactly the matches, each holds its own lookup's answer, and as many
      lookups were made as there are distinct matches. A failure names a match whose lookup
      failed, after one lookup per distinct match before it. */
  lemma ResolveOnce(matches: seq<string>, resolve: string -> Result<string>)
    ensures var r := Resolve(matches, resolve);
      (forall k :: k in r.values ==> k in matches && resolve(VariableName(k)) == Ok(r.values[k]))
      && (forall k :: k in r.values ==> VariableName(k) in r.asked)
      && |r.asked| == |r.values| + (if r.failed.Some? then 1 else 0)
      && (r.failed.None? ==> forall k :: k in matches ==> k in r.values)
      && (r.failed.Some? ==> r.failed.value in matches && r.failed.value !in r.values
                             && resolve(VariableName(r.failed.value)).Err?)
  {
    ResolveValues(matches, resolve);
    ResolveCovers(matches, resolve);
    ResolveCount(matches, resolve);
  }

  /** The values and the failure come from the matches' own lookups. */
  lemma {:induction false} ResolveValues(matches: seq<string>, resolve: string -> Result<string>)
    ensures var r := Resolve(matches, resolve);
      (forall k :: k in r.values ==> k in matches && resolve(VariableName(k)) == Ok(r.values[k]))
      && (r.failed.Some? ==> r.failed.value in matches && r.failed.value !in r.values
                             && resolve(VariableName(r.failed.value)).Err?)
    decreases |matches|
  {
    if |matches| > 0 {
      var n := |matches| - 1;
      var front := matches[..n];
      var m := matches[n];
      assert matches == front + [m];
      ResolveValues(front, resolve);
    }
  }

  /** A successful resolution has a value for every match. */
  lemma {:induction false} ResolveCovers(matches: seq<string>, resolve: string -> Result<string>)
    ensures var r := Resolve(matches, resolve);
      r.failed.None? ==> forall k :: k in matches ==> k in r.values
    decreases |matches|
  {
    if |matches| > 0 {
      var n := |matches| - 1;
      var front := matches[..n];
      var m := matches[n];
      assert matches == front + [m];
      ResolveCovers(front, resolve);
      if Resolve(front, resolve).failed.Some? {
        ResolveFailedStays(matches, n, resolve);
      }
    }
  }

  /** One lookup per value, plus the failed one. */
  lemma {:induction false} ResolveCount(matches: seq<string>, resolve: string -> Result<string>)
    ensures var r := Resolve(matches, resolve);
      (forall k :: k in r.values ==> VariableName(k) in r.asked)
      && |r.asked| == |r.values| + (if r.failed.Some? then 1 else 0)
    decreases |matches|
  {
    if |matches| > 0 {
      var n := |matches| - 1;
      var front := matches[..n];
      var m := matches[n];
      ResolveCount(front, resolve);
      var prev := Resolve(front, resolve);
      if prev.failed.None? && m !in prev.values {
        var name := VariableName(m);
        match resolve(name)
        case Err(_) =>
        case Ok(v) =>
          assert |prev.values[m := v]| == |prev.values| + 1;
      }
    }
  }

  /** Once a lookup has failed, the matches after it change nothing. */
  lemma {:induction false} ResolveFailedStays(matches: seq<string>, n: nat, resolve: string -> Result<string>)
    requires n <= |matches| && Resolve(matches[..n], resolve).failed.Some?
    ensures Resolve(matches, resolve) == Resolve(matches[..n], resolve)
    decreases |matches| - n
  {
    if n < |matches| {
      assert matches[..n + 1][..n] == matches[..n];
      ResolveFailedStays(matches, n + 1, resolve);
    } else {
      assert matches[..n] == matches;
    }
  }

  /** The replacement loop: every occurrence of each placeholder, visited in `order`, is
      replaced by its value. */
  function Substitute(s: string, values: map<string, string>, order: seq<string>): string
    requires forall i :: 0 <= i < |order| ==> order[i] in values && |order[i]| > 0
    decreases |order|
  {
    if |order| == 0 then s
    else Substitute(ReplaceAll(s, order[0], values[order[0]]), values, order[1..])
  }

  /** A text holding none of the placeholders is left as it is. */
  lemma {:induction false} SubstituteAbsent(s: string, values: map<string, string>, order: seq<string>)
    requires forall i :: 0 <= i < |order| ==> order[i] in values && |order[i]| > 0
    requires forall i :: 0 <= i < |order| ==> !Contains(s, order[i])
    ensures Substitute(s, values, order) == s
    decreases |order|
  {
    if |order| > 0 {
      ReplaceAllAbsent(s, order[0], values[order[0]]);
      SubstituteAbsent(s, values, order[1..]);
    }
  }

  // ---------------------------------------------------------------------------------------
  // Cron scheduling

  /** The cron scheduler: entry ID -> the mission the entry runs; `next` is the ID the next
      entry gets. */
  class Scheduler {
    var entries: map<nat, string>
    var next: nat

    constructor()
      ensures entries == map[] && next == 1
    {
      entries, next := map[], 1;
    }
  }

  /** cancelMission: the mission takes the given status and loses its cron entry, if it has one. */
  method CancelMission(sched: Scheduler, m: Task, status: int) returns (m': Task)
    modifies sched
    ensures m' == m.(status := status, entryId := None)
    ensures sched.entries == (if m.entryId.Some? then old(sched.entries) - {m.entryId.value} else old(sched.entries))
    ensures sched.next == old(sched.next)
  {
    m' := m.(status := status);
    if m.entryId.Some? {
      sched.entries := sched.entries - {m.entryId.value};
      m' := m'.(entryId := None);
    }
  }

  /** ScheduleMission: manual missions and cron expressions that do not parse are refused;
      otherwise a cron entry running the mission is added, and the mission is scheduled
      (status 1), not running, and holds the entry's ID. `parses` is cron.ParseStandard. */
  method ScheduleMission(sched: Scheduler, m: Task, parses: string -> bool) returns (m': Task, err: Option<string>)
    modifies sched
    ensures m.cron == "manual" ==> err == Some("手动任务不能被调度")
    ensures m.cron != "manual" && !parses(m.cron) ==> err == Some("任务的表达式无效")
    ensures err.Some? ==> m' == m && sched.entries == old(sched.entries) && sched.next == old(sched.next)
    ensures err.None? <==> m.cron != "manual" && parses(m.cron)
    ensures err.None? ==>
      m' == m.(status := 1, isRunning := false, entryId := Some(old(sched.next)))
      && sched.entries == old(sched.entries)[old(sched.next) := m.id] && sched.next == old(sched.next) + 1
  {
    m' := m;
    if m.cron == "manual" {
      return m', Some("手动任务不能被调度");
    }
    if !parses(m.cron) {
      return m', Some("任务的表达式无效");
    }
    var entry := sched.next;
    sched.entries := sched.entries[entry := m.id];
    sched.next := sched.next + 1;
    m' := m.(status := 1, isRunning := false, entryId := Some(entry));
    return m', None;
  }

  /** RunMissionManual: a mission already running is refused; otherwise a manual run starts. */
  function RunMissionManual(isRunning: bool): (err: Option<string>)
    ensures err.None? <==> !isRunning
    ensures err.Some? ==> err.value == "任务正在运行中"
  {
    if isRunning then Some("任务正在运行中") else None
  }

  // ---------------------------------------------------------------------------------------
  // The run wrapper

  /** What became of one invocation of the wrapper. */
  datatype Outcome = Refused | Skipped | ResolveFailed(placeholder: string) | ParseFailed | Ran(err: Option<string>)

  /** The bookkeeping after a run that started at `start` and ended at `end` with `err`. */
  function AfterRun(m: Task, runBy: string, start: int, end: int, err: Option<string>): (t: Task)
    ensures !t.isRunning && t.lastEndTime == Some(end)
    ensures t.id == m.id && t.name == m.name && t.cron == m.cron && t.data == m.data && t.lastRunTime == m.lastRunTime
    ensures err.None? ==> t.errMsg == "Success" && t.lastSuccessTime == Some(start)
    ensures err.None? || runBy != SystemRun ==> t.status == m.status && t.entryId == m.entryId
    ensures err.Some? ==> t.errMsg == err.value && t.lastSuccessTime == m.lastSuccessTime
    ensures err.Some? && runBy == SystemRun ==> t.status == 2 && t.entryId.None?
  {
    var t := m.(lastEndTime := Some(end));
    var t := if err.Some? then
        var failed := t.(errMsg := err.value);
        if runBy == SystemRun then failed.(status := 2, entryId := None) else failed
      else t.(lastSuccessTime := Some(start), errMsg := "Success");
    t.(isRunning := false)
  }

  /** The distinct placeholders of a text. */
  function PlaceholderSet(s: string): set<string>
  {
    set k | k in Placeholders(s)
  }

  /** middleware: one invocation for `mission` (the row as loaded), by "system" (cron) or
      "manual". `now` and `end` are the clock readings, `resolve` is GetValueByName, `parse`
      tells whether the substituted text parses back into a configuration, `run` is RunTask
      on the configuration text, and `order` is the order the resolved placeholders are
      visited in. `saved` is the mission as it is saved at the end. */
  method Middleware(sched: Scheduler, mission: Task, runBy: string, now: int, end: int,
                    resolve: string -> Result<string>, parse: string -> bool, run: string -> Option<string>,
                    order: seq<string>)
    returns (saved: Task, outcome: Outcome, asked: seq<string>)
    requires IsEnumeration(order, PlaceholderSet(mission.data))
    modifies sched
    ensures mission.status != 1 && runBy == SystemRun ==>
      outcome == Refused && saved == mission && asked == [] && sched.entries == old(sched.entries)
    ensures !(mission.status != 1 && runBy == SystemRun) && mission.isRunning ==>
      outcome == Skipped && saved == mission && asked == [] && sched.entries == old(sched.entries)
    ensures !(mission.status != 1 && runBy == SystemRun) && !mission.isRunning ==> (
      var started := mission.(isRunning := true, lastRunTime := Some(now));
      var ps := Placeholders(mission.data);
      var r := Resolve(ps, resolve);
      asked == r.asked
      && (r.failed.Some? ==> outcome == ResolveFailed(r.failed.value) && saved == started
                             && sched.entries == old(sched.entries))
      && (r.failed.None? ==>
          (forall i :: 0 <= i < |order| ==> order[i] in r.values && |order[i]| > 0) &&
          var text := if |ps| == 0 then mission.data else Substitute(mission.data, r.values, order);
          if |ps| > 0 && !parse(text) then
            outcome == ParseFailed && saved == started && sched.entries == old(sched.entries)
          else
            outcome == Ran(run(text)) && saved == AfterRun(started, runBy, now, end, run(text))
            && sched.entries == (if run(text).Some? && runBy == SystemRun && mission.entryId.Some?
                                 then old(sched.entries) - {mission.entryId.value} else old(sched.entries))))
  {
    saved, asked := mission, [];
    if mission.status != 1 && runBy == SystemRun {
      return saved, Refused, asked;
    }
    if mission.isRunning {
      return saved, Skipped, asked;
    }
    saved := saved.(isRunning := true, lastRunTime := Some(now));
    var stringData := mission.data;
    var matches := Placeholders(stringData);
    if |matches| != 0 {
      var values, failed;
      values, asked, failed := ResolveAll(matches, resolve);
      if failed.Some? {
        return saved, ResolveFailed(failed.value), asked;
      }
      ResolveOnce(matches, resolve);
      stringData := SubstituteAll(stringData, values, order);
      if !parse(stringData) {
        return saved, ParseFailed, asked;
      }
    }
    var err := run(stringData);
    saved := saved.(lastEndTime := Some(end));
    if err.Some? {
      saved := saved.(errMsg := err.value);
      if runBy == SystemRun {
        saved := CancelMission(sched, saved, 2);
      }
    } else {
      saved := saved.(lastSuccessTime := Some(now), errMsg := "Success");
    }
    saved := saved.(isRunning := false);
    outcome := Ran(err);
  }

  /** The resolution loop of middleware. */
  method ResolveAll(matches: seq<string>, resolve: string -> Result<string>)
    returns (values: map<string, string>, asked: seq<string>, failed: Option<string>)
    ensures Resolution(values, asked, failed) == Resolve(matches, resolve)
  {
    values, asked := map[], [];
    var i := 0;
    while i < |matches|
      invariant 0 <= i <= |matches|
      invariant Resolve(matches[..i], resolve) == Resolution(values, asked, None)
    {
      ResolvePrefix(matches, i, resolve);
      if matches[i] !in values {
        var name := TrimSuffix(TrimPrefix(matches[i], "${"), "}");
        var value := resolve(name);
        asked := asked + [name];
        if value.Err? {
          ResolveFailedStays(matches, i + 1, resolve);
          return values, asked, Some(matches[i]);
        }
        values := values[matches[i] := value.value];
      }
      i := i + 1;
    }
    assert matches[..i] == matches;
    return values, asked, None;
  }

  /** The replacement loop of middleware. */
  method SubstituteAll(s: string, values: map<string, string>, order: seq<string>) returns (out: string)
    requires forall i :: 0 <= i < |order| ==> order[i] in values && |order[i]| > 0
    ensures out == Substitute(s, values, order)
  {
    out := s;
    var j := 0;
    while j < |order|
      invariant 0 <= j <= |order|
      invariant Substitute(out, values, order[j..]) == Substitute(s, values, order)
    {
      assert order[j..][1..] == order[j + 1..];
      out := ReplaceAll(out, order[j], values[order[j]]);
      j := j + 1;
    }
  }

  // ---------------------------------------------------------------------------------------
  // Run records

  /** A run record: status 0 running, 1 succeeded, 2 failed. */
  datatype TaskRecord = TaskRecord(id: string, runBy: string, taskId: string, status: int, message: string,
                                   startTime: int, endTime: Option<int>, data: string)

  /** The status and message a finished run is recorded with. */
  function RecordResult(err: Option<string>, cancelled: bool): (r: (int, string))
    ensures r.0 == 1 <==> err.None? && !cancelled
    ensures r.0 == 1 || r.0 == 2
    ensures r.0 == 1 ==> r.1 == "ok"
    ensures err.Some? ==> r.1 == err.value
    ensures err.None? && cancelled ==> r.1 == "任务被手动中止"
  {
    if err.Some? then (2, err.value)
    else if cancelled then (2, "任务被手动中止")
    else (1, "ok")
  }

  /** The run bookkeeping shared by RunTask: the records, the cancel functions of the runs in
      progress (by record ID) and the manual-cancel markers (by record ID). */
  class Runs {
    var records: map<string, TaskRecord>
    var running: set<string>
    var manualCancel: map<string, string>

    constructor()
      ensures records == map[] && running == {} && manualCancel == map[]
    {
      records, running, manualCancel := map[], {}, map[];
    }

    /** CancelMissionRecord: a run in progress is cancelled and marked as cancelled by hand;
        any other ID is refused. */
    method CancelMissionRecord(id: string) returns (err: Option<string>)
      modifies this
      ensures id in old(running) ==> err.None? && manualCancel == old(manualCancel)[id := "cancel"]
      ensures id !in old(running) ==> err == Some("任务不存在或状态不可停止") && manualCancel == old(manualCancel)
      ensures records == old(records) && running == old(running)
    {
      if id in running {
        manualCancel := manualCancel[id := "cancel"];
        return None;
      }
      return Some("任务不存在或状态不可停止");
    }

    /** RunTask as written: the record is created as running; `setupErr` is the first error of
        building the components, `cancelled` whether CancelMissionRecord is called while the
        engine runs, `engineErr` what the engine returns. The manual-cancel marker is deleted
        under the mission's ID, so the record's marker stays behind. */
    method RunTaskAsWritten(mission: Task, runBy: string, recordId: string, start: int, end: int,
                            createErr: Option<string>, setupErr: Option<string>, cancelled: bool,
                            engineErr: Option<string>)
      returns (err: Option<string>)
      requires recordId !in records && recordId !in running && recordId !in manualCancel
      modifies this
      ensures createErr.Some? ==> err == createErr && records == old(records) && manualCancel == old(manualCancel)
      ensures running == old(running)
      ensures createErr.None? ==>
        var ran := mission.id != "" && setupErr.None?;
        var marked := ran && cancelled;
        err == (if mission.id == "" then Some("任务不存在") else if setupErr.Some? then setupErr else engineErr)
        && var (status, message) := RecordResult(err, marked);
        records == old(records)[recordId := TaskRecord(recordId, runBy, mission.id, status, message, start, Some(end), mission.data)]
        && manualCancel == (if marked then old(manualCancel)[recordId := "cancel"] else old(manualCancel))
                           - (if marked && err.None? then {mission.id} else {})
    {
      if createErr.Some? {
        return createErr;
      }
      var record := TaskRecord(recordId, runBy, mission.id, 0, "", start, None, mission.data);
      records := records[recordId := record];
      if mission.id == "" {
        err := Some("任务不存在");
      } else if setupErr.Some? {
        err := setupErr;
      } else {
        running := running + {recordId};
        if cancelled {
          var _ := CancelMissionRecord(recordId);
        }
        err := engineErr;
        running := running - {recordId};
      }
      if err.None? && recordId in manualCancel {
        record := record.(status := 2, message := "任务被手动中止");
        manualCancel := manualCancel - {mission.id};
      } else if err.None? {
        record := record.(status := 1, message := "ok");
      } else {
        record := record.(status := 2, message := err.value);
      }
      records := records[recordId := record.(endTime := Some(end))];
    }

    /** RunTask as intended: the same, with the marker deleted under the record's own ID, so a
        cleanly finished cancelled run leaves no marker behind. */
    method RunTask(mission: Task, runBy: string, recordId: string, start: int, end: int,
                   createErr: Option<string>, setupErr: Option<string>, cancelled: bool,
                   engineErr: Option<string>)
      returns (err: Option<string>)
      requires recordId !in records && recordId !in running && recordId !in manualCancel
      modifies this
      ensures createErr.Some? ==> err == createErr && records == old(records) && manualCancel == old(manualCancel)
      ensures running == old(running)
      ensures createErr.None? ==>
        var marked := mission.id != "" && setupErr.None? && cancelled;
        err == (if mission.id == "" then Some("任务不存在") else if setupErr.Some? then setupErr else engineErr)
        && var (status, message) := RecordResult(err, marked);
        records == old(records)[recordId := TaskRecord(recordId, runBy, mission.id, status, message, start, Some(end), mission.data)]
        && manualCancel == (if marked && err.Some? then old(manualCancel)[recordId := "cancel"] else old(manualCancel))
      ensures recordId !in running
    {
      if createErr.Some? {
        return createErr;
      }
      var record := TaskRecord(recordId, runBy, mission.id, 0, "", start, None, mission.data);
      records := records[recordId := record];
      if mission.id == "" {
        err := Some("任务不存在");
      } else if setupErr.Some? {
        err := setupErr;
      } else {
        running := running + {recordId};
        if cancelled {
          var _ := CancelMissionRecord(recordId);
        }
        err := engineErr;
        running := running - {recordId};
      }
      if err.None? && recordId in manualCancel {
        record := record.(status := 2, message := "任务被手动中止");
        manualCancel := manualCancel - {recordId};
      } else if err.None? {
        record := record.(status := 1, message := "ok");
      } else {
        record := record.(status := 2, message := err.value);
      }
      records := records[recordId := record.(endTime := Some(end))];
    }
  }

  /** A run cancelled by hand: the code as written leaves the record's marker behind, the
      intended code removes it. Both record the run as stopped by hand. */
  method CancelledRunMarker() returns (leftAsWritten: bool, leftIntended: bool, status: int, message: string)
    ensures leftAsWritten && !leftIntended
    ensures status == 2 && message == "任务被手动中止"
  {
    var mission := Task("m1", "nightly", "0 2 * * *", "{}", 1, true, "", None, None, None, Some(1));
    var a := new Runs();
    var _ := a.RunTaskAsWritten(mission, SystemRun, "r1", 10, 20, None, None, true, None);
    leftAsWritten := "r1" in a.manualCancel;
    var b := new Runs();
    var _ := b.RunTask(mission, SystemRun, "r1", 10, 20, None, None, true, None);
    leftIntended := "r1" in b.manualCancel;
    status, message := b.records["r1"].status, b.records["r1"].message;
  }
}
