// The pipeline engine (etl/pipeline/engine.go): it prepares the component
// configurations, opens the components in order, streams records from the
// source through the processors into the sink in batches, runs the optional
// executors, and closes everything in reverse order.
//
// The source, processor and sink goroutines are modelled by one of their
// schedules: each record travels from the source through every processor to
// the sink before the next Read. Cancellation of the run's context is
// observed where the workers check it, at the head of each loop; an external
// cancellation is an input that names the first check that observes it.
module Pipeline {
  import opened Wrappers
  import opened Text
  import opened Values
  import Files

  const DefaultBatchSize: int := 1000
  const DefaultChannelSize: int := 10000

  /** Config: tuning values; zero or negative selects the default. */
  datatype Config = Config(batchSize: int, channelSize: int)

  /** A component's configuration: string parameters by key. */
  type Params = map<string, string>

  /** What Source.Read returns: a record, io.EOF, or another error. */
  datatype ReadResult = Row(r: Record) | EndOfData | ReadFailure(msg: string)

  /** What Processor.Process returns: a record, nil (filtered out), or an error. */
  datatype ProcessResult = Emit(r: Record) | Filtered | ProcessFailure(msg: string)

  /** How an executor answers Open and Close. */
  datatype ExecutorPlugin = ExecutorPlugin(open: Params -> Outcome, close: Outcome)

  /** How a processor answers HandleColumns, Open, Process and Close. */
  datatype ProcessorPlugin = ProcessorPlugin(
    typeName: string,
    handleColumns: Mapping -> Mapping,
    open: Params -> Outcome,
    process: Record -> ProcessResult,
    close: Outcome)

  /** The components of one run. The source's Read answers are listed in call
      order and are io.EOF once the list is exhausted; the sink's n-th Write
      answers write(n, batch). */
  datatype Plugins = Plugins(
    before: ExecutorPlugin,
    sourceOpen: Params -> Outcome,
    column: Mapping,
    answers: seq<ReadResult>,
    sourceClose: Outcome,
    processors: seq<ProcessorPlugin>,
    sinkOpen: (Params, Mapping) -> Outcome,
    write: (nat, seq<Record>) -> Outcome,
    sinkClose: Outcome,
    after: ExecutorPlugin)

  /** The configurations after HandleInternalConfig; the executors' are optional. */
  datatype Resolved = Resolved(
    before: Option<Params>, source: Params, processors: seq<Params>, sink: Params, after: Option<Params>)

  /** The calls the engine makes on its components, in order. */
  datatype Event =
    | BeforeOpened | BeforeClosed
    | SourceOpened
    | ColumnsHandled(index: nat) | ProcessorOpened(index: nat)
    | SinkOpened(columns: Mapping)
    | Written(batch: seq<Record>)
    | AfterOpened | AfterClosed
    | SinkClosed | ProcessorClosed(index: nat) | SourceClosed

  /** A configured size, or the default when it is not positive. */
  function Effective(configured: int, default: int): (r: int)
    ensures configured > 0 ==> r == configured
    ensures configured <= 0 ==> r == default
  {
    if configured <= 0 then default else configured
  }

  /** How error messages name processor i (counted from 0): "#<i+1> (<type>)". */
  function ProcessorLabel(i: nat, typeName: string): string
  {
    "#" + IntToDecimal(i + 1) + " (" + typeName + ")"
  }

  // ---------------------------------------------------------------------------
  // Opening the components

  /** Where opening stopped: the calls made, the first failure, the column mapping reached. */
  datatype Stage = Stage(events: seq<Event>, failure: Option<string>, columns: Mapping)

  function OpenProcessors(p: Plugins, cfg: seq<Params>, i: nat, columns: Mapping, events: seq<Event>): Stage
    requires |cfg| == |p.processors| && i <= |p.processors|
    decreases |p.processors| - i
  {
    if i == |p.processors| then Stage(events, None, columns)
    else
      var handled := p.processors[i].handleColumns(columns);
      var ev := events + [ColumnsHandled(i), ProcessorOpened(i)];
      match p.processors[i].open(cfg[i])
      case Fail(m) =>
        Stage(ev, Some("pipeline: failed to open processor " + ProcessorLabel(i, p.processors[i].typeName) + ": " + m), handled)
      case Pass => OpenProcessors(p, cfg, i + 1, handled, ev)
  }

  function OpenBefore(p: Plugins, before: Option<Params>): Stage
  {
    if before.None? then Stage([], None, map[])
    else match p.before.open(before.value)
      case Fail(m) => Stage([BeforeOpened], Some("pipeline: failed to open before executor: " + m), map[])
      case Pass =>
        match p.before.close
        case Fail(m) => Stage([BeforeOpened, BeforeClosed], Some("pipeline: failed to close before executor: " + m), map[])
        case Pass => Stage([BeforeOpened, BeforeClosed], None, map[])
  }

  /** The opening sequence of Run: before executor (opened and closed), source,
      then for each processor HandleColumns and Open, then the sink with the
      final column mapping. The first failure stops it. */
  function Setup(p: Plugins, r: Resolved): Stage
    requires |r.processors| == |p.processors|
  {
    var b := OpenBefore(p, r.before);
    if b.failure.Some? then b
    else
      var ev := b.events + [SourceOpened];
      match p.sourceOpen(r.source)
      case Fail(m) => Stage(ev, Some("pipeline: failed to open source: " + m), map[])
      case Pass =>
        var procs := OpenProcessors(p, r.processors, 0, p.column, ev);
        if procs.failure.Some? then procs
        else
          var evs := procs.events + [SinkOpened(procs.columns)];
          match p.sinkOpen(r.sink, procs.columns)
          case Fail(m) => Stage(evs, Some("pipeline: failed to open sink: " + m), procs.columns)
          case Pass => Stage(evs, None, procs.columns)
  }

  // ---------------------------------------------------------------------------
  // Streaming

  function ReadAt(answers: seq<ReadResult>, k: nat): ReadResult
  {
    if k < |answers| then answers[k] else EndOfData
  }

  /** Whether the check numbered `check` (from 0) observes the external cancellation. */
  predicate Seen(ext: Option<nat>, check: nat)
  {
    ext.Some? && check >= ext.value
  }

  /** What became of one record on its way through the processors. */
  datatype Passage =
    | Arrived(r: Record, checks: nat)             // reached the sink's channel
    | Dropped(checks: nat)                        // a processor returned nil
    | Halted(checks: nat, errs: seq<string>)      // a processor stopped: cancelled, or failed with errs

  function Through(ps: seq<ProcessorPlugin>, i: nat, r: Record, checks: nat, ext: Option<nat>): Passage
    requires i <= |ps|
    decreases |ps| - i
  {
    if i == |ps| then Arrived(r, checks)
    else if Seen(ext, checks) then Halted(checks + 1, [])
    else match ps[i].process(r)
      case ProcessFailure(m) =>
        Halted(checks + 1, ["processor " + ProcessorLabel(i, ps[i].typeName) + " error: " + m])
      case Filtered => Dropped(checks + 1)
      case Emit(out) => Through(ps, i + 1, out, checks + 1, ext)
  }

  /** How streaming ended: Read calls made, batches given to Write, errors reported in order. */
  datatype StreamEnd = StreamEnd(readCalls: nat, writes: seq<seq<Record>>, errs: seq<string>)

  /** The sink's input channel was closed: a non-empty batch gets a last Write. */
  function FinalFlush(p: Plugins, readCalls: nat, batch: seq<Record>, writes: seq<seq<Record>>, errs: seq<string>): StreamEnd
  {
    if |batch| == 0 then StreamEnd(readCalls, writes, errs)
    else match p.write(|writes|, batch)
      case Pass => StreamEnd(readCalls, writes + [batch], errs)
      case Fail(m) => StreamEnd(readCalls, writes + [batch], errs + ["sink error on final flush: " + m])
  }

  /** The three workers from the k-th Read on, with `batch` waiting in the sink. */
  function StreamFrom(p: Plugins, b: nat, ext: Option<nat>, k: nat, checks: nat,
                      batch: seq<Record>, writes: seq<seq<Record>>, errs: seq<string>): StreamEnd
    requires b > 0 && k <= |p.answers|
    decreases |p.answers| - k
  {
    if Seen(ext, checks) then FinalFlush(p, k, batch, writes, errs)
    else match ReadAt(p.answers, k)
      case EndOfData => FinalFlush(p, k + 1, batch, writes, errs)
      case ReadFailure(m) => FinalFlush(p, k + 1, batch, writes, errs + ["source error: " + m])
      case Row(r) =>
        match Through(p.processors, 0, r, checks + 1, ext)
        case Dropped(c) => StreamFrom(p, b, ext, k + 1, c, batch, writes, errs)
        case Halted(c, e) => FinalFlush(p, k + 1, batch, writes, errs + e)
        case Arrived(out, c) =>
          if Seen(ext, c) then StreamEnd(k + 1, writes, errs)
          else if |batch| + 1 >= b then
            match p.write(|writes|, batch + [out])
            case Pass => StreamFrom(p, b, ext, k + 1, c + 1, [], writes + [batch + [out]], errs)
            case Fail(m) => StreamEnd(k + 1, writes + [batch + [out]], errs + ["sink error: " + m])
          else StreamFrom(p, b, ext, k + 1, c + 1, batch + [out], writes, errs)
  }

  function Stream(p: Plugins, b: nat, ext: Option<nat>): StreamEnd
    requires b > 0
  {
    StreamFrom(p, b, ext, 0, 0, [], [], [])
  }

  /** The worker errors, received in order, as one error: "first; second; ...". */
  function JoinErrors(errs: seq<string>): Option<string>
  {
    if |errs| == 0 then None else Some(Join(errs, "; "))
  }

  function WrittenEvents(writes: seq<seq<Record>>): (r: seq<Event>)
    ensures |r| == |writes|
    ensures forall i :: 0 <= i < |r| ==> r[i] == Written(writes[i])
  {
    if |writes| == 0 then [] else [Written(writes[0])] + WrittenEvents(writes[1..])
  }

  // ---------------------------------------------------------------------------
  // After executor and closing

  function AfterPhase(p: Plugins, after: Option<Params>): (seq<Event>, Option<string>)
  {
    if after.None? then ([], None)
    else match p.after.open(after.value)
      case Fail(m) => ([AfterOpened], Some("pipeline: failed to open after executor: " + m))
      case Pass =>
        match p.after.close
        case Fail(m) => ([AfterOpened, AfterClosed], Some("pipeline: failed to close after executor: " + m))
        case Pass => ([AfterOpened, AfterClosed], None)
  }

  /** A close error is kept only when no error has been recorded yet. */
  function KeepFirst(err: Option<string>, closed: Outcome, what: string): Option<string>
  {
    if err.None? && closed.Fail? then Some("pipeline: failed to close " + what + ": " + closed.msg) else err
  }

  /** Closing processors i-1 down to 0. */
  function CloseProcessors(p: Plugins, i: nat, err: Option<string>): (seq<Event>, Option<string>)
    requires i <= |p.processors|
    decreases i
  {
    if i == 0 then ([], err)
    else
      var e := KeepFirst(err, p.processors[i - 1].close, "processor " + ProcessorLabel(i - 1, p.processors[i - 1].typeName));
      var rest := CloseProcessors(p, i - 1, e);
      ([ProcessorClosed(i - 1)] + rest.0, rest.1)
  }

  /** The deferred closer: sink, processors from last to first, source. */
  function Closing(p: Plugins, err: Option<string>): (seq<Event>, Option<string>)
  {
    var e1 := KeepFirst(err, p.sinkClose, "sink");
    var procs := CloseProcessors(p, |p.processors|, e1);
    var e3 := KeepFirst(procs.1, p.sourceClose, "source");
    ([SinkClosed] + procs.0 + [SourceClosed], e3)
  }

  /** A whole run after its configurations are prepared, except output-file saving. */
  datatype Lifecycle = Lifecycle(events: seq<Event>, err: Option<string>, stream: Option<StreamEnd>)

  /** Everything after a successful opening sequence: streaming, then the after
      executor when no worker reported an error, then closing. */
  function Proceed(p: Plugins, after: Option<Params>, b: nat, ext: Option<nat>): Lifecycle
    requires b > 0
  {
    Wind(p, after, Stream(p, b, ext))
  }

  /** What follows a stream that ended as `st`: the after executor when no worker
      reported an error, then closing. */
  function Wind(p: Plugins, after: Option<Params>, st: StreamEnd): Lifecycle
  {
    var workerErr := JoinErrors(st.errs);
    if workerErr.Some? then
      var c := Closing(p, workerErr);
      Lifecycle(WrittenEvents(st.writes) + c.0, c.1, Some(st))
    else
      var f := Finish(p, after);
      Lifecycle(WrittenEvents(st.writes) + f.0, f.1, Some(st))
  }

  /** After a clean stream: the after executor, then closing with its error. */
  function Finish(p: Plugins, after: Option<Params>): (seq<Event>, Option<string>)
  {
    var a := AfterPhase(p, after);
    var c := Closing(p, a.1);
    (a.0 + c.0, c.1)
  }

  function RunSpec(p: Plugins, r: Resolved, b: nat, ext: Option<nat>): Lifecycle
    requires b > 0 && |r.processors| == |p.processors|
  {
    var s := Setup(p, r);
    var l := Launch(p, s.failure, r.after, b, ext);
    Lifecycle(s.events + l.events, l.err, l.stream)
  }

  /** What follows the opening sequence: closing straight away when it failed
      with `failure`, streaming and the rest otherwise. */
  function Launch(p: Plugins, failure: Option<string>, after: Option<Params>, b: nat, ext: Option<nat>): Lifecycle
    requires b > 0
  {
    if failure.Some? then
      var c := Closing(p, failure);
      Lifecycle(c.0, c.1, None)
    else
      Proceed(p, after, b, ext)
  }

  /** errors.Join of an optional error and one more error: joined with a newline. */
  function JoinError(err: Option<string>, more: string): string
  {
    if err.None? then more else err.value + "\n" + more
  }

  // ---------------------------------------------------------------------------
  // HandleInternalConfig

  /** A configuration as given to Run, with the order Go happens to iterate its
      keys in and the id uuid.New would supply to CreateOutputFile. */
  datatype ConfigArg = ConfigArg(params: Params, order: seq<string>, freshId: string)

  predicate WellOrdered(c: ConfigArg)
  {
    IsEnumeration(c.order, c.params.Keys)
  }

  /** The message fmt.Errorf produces for "<key> config is invalid: %w" with the key string. */
  function InvalidConfig(key: string): string
  {
    key + " config is invalid: %!w(string=" + key + ")"
  }

  /** The ids a configuration refers to through file_id and file_ids. */
  function ReferencedIds(params: Params): set<string>
  {
    (if "file_id" in params then {params["file_id"]} else {})
    + (if "file_ids" in params then (set s | s in Split(params["file_ids"], ',')) else {})
  }

  /** The absolute path GetFilePath answers for a recorded id. */
  function RecordPath(records: map<string, Files.FileRecord>, workDir: string, id: string): string
    requires id in records
  {
    workDir + Files.LocalPath(id, records[id])[1..]
  }

  /** The absolute paths of recorded ids, in their order. */
  function RecordPaths(records: map<string, Files.FileRecord>, workDir: string, ids: seq<string>): (paths: seq<string>)
    requires forall j :: 0 <= j < |ids| ==> ids[j] in records
    ensures |paths| == |ids|
  {
    seq(|ids|, j requires 0 <= j < |ids| => RecordPath(records, workDir, ids[j]))
  }

  /** Adding a record under a new id moves no recorded path. */
  lemma RecordPathsGrow(records: map<string, Files.FileRecord>, records': map<string, Files.FileRecord>,
                        workDir: string, ids: seq<string>)
    requires forall j :: 0 <= j < |ids| ==> ids[j] in records
    requires forall id :: id in records ==> id in records' && records'[id] == records[id]
    ensures RecordPaths(records', workDir, ids) == RecordPaths(records, workDir, ids)
  {
  }

  /** The records only gained entries under new ids. */
  ghost predicate Extends(records: map<string, Files.FileRecord>, records': map<string, Files.FileRecord>)
  {
    forall id :: id in records ==> id in records' && records'[id] == records[id]
  }

  /** What HandleInternalConfig leaves for one configuration, read against the records
      it ended with: the original keys keep their values except the ones it added, every
      referenced id has a record, the output file of file_name is recorded, and file_path
      and file_paths hold the recorded paths. */
  ghost predicate Applied(c: ConfigArg, updated: Params, records: map<string, Files.FileRecord>, workDir: string)
  {
    && updated.Keys == c.params.Keys + Introduced(c.params.Keys)
    && (forall k :: k in c.params && k !in Introduced(c.params.Keys) ==> updated[k] == c.params[k])
    && ("file_id" in c.params ==> c.params["file_id"] in records)
    && ("file_name" in c.params ==> c.freshId in records && records[c.freshId] == OutputRecord(c.params))
    && ("file_ids" in c.params ==>
          && (forall j :: 0 <= j < |Split(c.params["file_ids"], ',')| ==> Split(c.params["file_ids"], ',')[j] in records)
          && updated["file_paths"] == Join(RecordPaths(records, workDir, Split(c.params["file_ids"], ',')), ","))
    && ("file_id" in c.params && "file_name" !in c.params ==>
          updated["file_path"] == RecordPath(records, workDir, c.params["file_id"]))
    && ("file_name" in c.params && "file_id" !in c.params ==>
          updated["file_path"] == RecordPath(records, workDir, c.freshId))
  }

  /** A resolved configuration stays resolved when later configurations add records. */
  lemma AppliedGrow(c: ConfigArg, updated: Params, records: map<string, Files.FileRecord>,
                    records': map<string, Files.FileRecord>, workDir: string)
    requires Applied(c, updated, records, workDir)
    requires Extends(records, records')
    ensures Applied(c, updated, records', workDir)
  {
    if "file_ids" in c.params {
      RecordPathsGrow(records, records', workDir, Split(c.params["file_ids"], ','));
    }
  }

  /** The keys HandleInternalConfig adds once the reserved keys among `keys` are handled. */
  function Introduced(keys: set<string>): set<string>
  {
    (if "file_id" in keys || "file_name" in keys then {"file_path"} else {})
    + (if "file_ids" in keys then {"file_paths"} else {})
  }

  /** The record CreateOutputFile makes for a configuration's file_name and file_ext. */
  function OutputRecord(params: Params): Files.FileRecord
    requires "file_name" in params
  {
    var ext := Files.NormalizeExt(Setting(params, "file_ext"));
    Files.FileRecord(Files.StoredName(params["file_name"], ext), "output", 0, ext)
  }

  /** The absolute paths of the files named in a file_ids list, or None when one has no record. */
  method ResolvePaths(files: Files.Store, ids: seq<string>) returns (paths: Option<seq<string>>)
    ensures paths.Some? <==> forall j :: 0 <= j < |ids| ==> ids[j] in files.records
    ensures paths.Some? ==> |paths.value| == |ids|
    ensures paths.Some? ==> forall j :: 0 <= j < |ids| ==> files.GetFilePath(ids[j]) == Ok(paths.value[j])
    ensures paths.Some? ==> paths.value == RecordPaths(files.records, files.workDir, ids)
  {
    var found: seq<string> := [];
    var j := 0;
    while j < |ids|
      invariant 0 <= j <= |ids|
      invariant |found| == j
      invariant forall m :: 0 <= m < j ==> ids[m] in files.records && files.GetFilePath(ids[m]) == Ok(found[m])
      invariant forall m :: 0 <= m < j ==> found[m] == RecordPath(files.records, files.workDir, ids[m])
    {
      var path := files.GetFilePath(ids[j]);
      if path.Err? {
        return None;
      }
      found := found + [path.value];
      j := j + 1;
    }
    return Some(found);
  }

  /** One turn of HandleInternalConfig's loop: the key k with value v, and the
      file_ext of the configuration. It answers the entry to add, if any. */
  method HandleKey(k: string, v: string, ext: string, freshId: string, files: Files.Store)
    returns (entry: Option<(string, string)>, err: Option<string>)
    modifies files
    ensures files.links == old(files.links) && files.disk == old(files.disk)
    ensures err.Some? ==> err.value == InvalidConfig(k) && entry.None?
    ensures k != "file_name" || err.Some? ==> files.records == old(files.records)
    ensures k != "file_id" && k != "file_ids" && k != "file_name" ==> entry.None? && err.None?
    ensures k == "file_id" ==> (err.None? <==> v in files.records)
    ensures k == "file_id" && err.None? ==>
      entry.Some? && entry.value.0 == "file_path" && files.GetFilePath(v) == Ok(entry.value.1)
      && entry.value.1 == RecordPath(files.records, files.workDir, v)
    ensures k == "file_ids" ==> (err.None? <==> forall s :: s in Split(v, ',') ==> s in files.records)
    ensures k == "file_ids" && err.None? ==>
      && (forall j :: 0 <= j < |Split(v, ',')| ==> Split(v, ',')[j] in files.records)
      && entry == Some(("file_paths", Join(RecordPaths(files.records, files.workDir, Split(v, ',')), ",")))
    ensures k == "file_name" ==> (err.None? <==> freshId !in old(files.records))
    ensures k == "file_name" && err.None? ==>
      && files.records == old(files.records)[freshId := Files.FileRecord(Files.StoredName(v, Files.NormalizeExt(ext)), "output", 0, Files.NormalizeExt(ext))]
      && entry == Some(("file_path", files.Abs("./file/output/" + freshId + Files.NormalizeExt(ext))))
      && entry.value.1 == RecordPath(files.records, files.workDir, freshId)
  {
    entry, err := None, None;
    if k == "file_id" {
      var path := files.GetFilePath(v);
      if path.Err? {
        return None, Some(InvalidConfig(k));
      }
      entry := Some(("file_path", path.value));
    } else if k == "file_ids" {
      var parts := Split(v, ',');
      var paths := ResolvePaths(files, parts);
      if paths.None? {
        return None, Some(InvalidConfig(k));
      }
      entry := Some(("file_paths", Join(paths.value, ",")));
    } else if k == "file_name" {
      var created := files.CreateOutputFile(v, ext, freshId);
      if created.Err? {
        return None, Some(InvalidConfig(k));
      }
      entry := Some(("file_path", created.value.1));
      var x := Files.NormalizeExt(ext);
      assert Files.LocalPath(freshId, files.records[freshId]) == "./file/output/" + freshId + x;
    }
  }

  /** Resolves the reserved keys of a configuration against the file store:
      file_id yields file_path, file_ids yields the comma-joined file_paths, and
      file_name (with file_ext) creates an output file record whose path becomes
      file_path and whose id is returned. No other key is added or changed. The
      first lookup that fails ends it. */
  method HandleInternalConfig(config: Option<ConfigArg>, files: Files.Store)
    returns (updated: Params, fileId: string, err: Option<string>)
    requires config.Some? ==> WellOrdered(config.value)
    modifies files
    ensures config.None? ==> fileId == "" && err.None? && files.records == old(files.records)
    ensures files.links == old(files.links) && files.disk == old(files.disk)
    ensures old(files.records).Keys <= files.records.Keys
    ensures err.Some? ==> fileId == ""
    ensures config.Some? && "file_name" !in config.value.params ==> fileId == "" && files.records == old(files.records)
    ensures config.Some? && err.None? ==>
      && updated.Keys == config.value.params.Keys + Introduced(config.value.params.Keys)
      && (forall k :: k in config.value.params && k !in Introduced(config.value.params.Keys) ==>
            updated[k] == config.value.params[k])
      && ReferencedIds(config.value.params) <= files.records.Keys
    ensures config.Some? && err.None? && "file_name" in config.value.params ==>
      && fileId == config.value.freshId && fileId in files.records && fileId !in old(files.records)
      && files.records == old(files.records)[fileId := OutputRecord(config.value.params)]
    ensures config.Some? && err.None? && "file_name" in config.value.params && "file_id" !in config.value.params ==>
      "file_path" in updated && updated["file_path"] == RecordPath(files.records, files.workDir, fileId)
    ensures config.Some? && err.None? && "file_id" in config.value.params && "file_name" !in config.value.params ==>
      "file_path" in updated && files.GetFilePath(config.value.params["file_id"]) == Ok(updated["file_path"])
    ensures config.Some? && err.None? && "file_ids" in config.value.params ==>
      var ids := Split(config.value.params["file_ids"], ',');
      && (forall j :: 0 <= j < |ids| ==> ids[j] in files.records)
      && "file_paths" in updated
      && updated["file_paths"] == Join(RecordPaths(files.records, files.workDir, ids), ",")
    ensures (config.Some? && ReferencedIds(config.value.params) <= old(files.records).Keys
             && config.value.freshId !in old(files.records)) ==> err.None?
    ensures (config.Some? && config.value.freshId !in ReferencedIds(config.value.params)
             && !(ReferencedIds(config.value.params) <= old(files.records).Keys)) ==> err.Some?
    ensures Extends(old(files.records), files.records)
  {
    if config.None? {
      return map[], "", None;
    }
    var c := config.value;
    fileId, err := "", None;
    updated := c.params;
    var i := 0;
    assert (set x | x in c.order[..0]) == {};
    while i < |c.order|
      invariant 0 <= i <= |c.order|
      invariant files.links == old(files.links) && files.disk == old(files.disk)
      invariant Handled(c, c.order[..i], updated, fileId, files.records, files.workDir, old(files.records))
    {
      var updated', fileId', e := Step(c, i, updated, fileId, files, old(files.records));
      if e.Some? {
        StepFailed(c, i, updated, fileId, files.records, files.workDir, old(files.records));
        HandledExtends(c, c.order[..i], updated, fileId, files.records, files.workDir, old(files.records));
        return updated', "", e;
      }
      updated, fileId := updated', fileId';
      i := i + 1;
    }
    assert c.order[..i] == c.order;
    HandledAll(c, updated, fileId, files.records, files.workDir, old(files.records));
    HandledExtends(c, c.order, updated, fileId, files.records, files.workDir, old(files.records));
  }

  /** Handling keys only adds the output file's record, under an id that was free. */
  lemma HandledExtends(c: ConfigArg, seen: seq<string>, updated: Params, fileId: string,
                       records: map<string, Files.FileRecord>, workDir: string, old0: map<string, Files.FileRecord>)
    requires Handled(c, seen, updated, fileId, records, workDir, old0)
    ensures Extends(old0, records)
  {
  }

  /** Once every key is handled, the facts of Handled speak of the configuration's own keys. */
  lemma HandledAll(c: ConfigArg, updated: Params, fileId: string, records: map<string, Files.FileRecord>,
                   workDir: string, old0: map<string, Files.FileRecord>)
    requires WellOrdered(c)
    requires Handled(c, c.order, updated, fileId, records, workDir, old0)
    ensures updated.Keys == c.params.Keys + Introduced(c.params.Keys)
    ensures forall k :: k in c.params && k !in Introduced(c.params.Keys) ==> updated[k] == c.params[k]
    ensures "file_name" !in c.params ==> fileId == "" && records == old0
    ensures "file_name" in c.params ==>
      fileId == c.freshId && c.freshId !in old0 && records == old0[c.freshId := OutputRecord(c.params)]
    ensures "file_id" in c.params ==> c.params["file_id"] in records
    ensures "file_ids" in c.params ==>
      && (forall j :: 0 <= j < |Split(c.params["file_ids"], ',')| ==> Split(c.params["file_ids"], ',')[j] in records)
      && "file_paths" in updated
      && updated["file_paths"] == Join(RecordPaths(records, workDir, Split(c.params["file_ids"], ',')), ",")
    ensures "file_id" in c.params && "file_name" !in c.params ==>
      "file_path" in updated && updated["file_path"] == RecordPath(records, workDir, c.params["file_id"])
    ensures "file_name" in c.params && "file_id" !in c.params ==>
      "file_path" in updated && updated["file_path"] == RecordPath(records, workDir, c.freshId)
    ensures old0.Keys <= records.Keys && ReferencedIds(c.params) <= records.Keys
    ensures c.freshId !in ReferencedIds(c.params) ==> ReferencedIds(c.params) <= old0.Keys
  {
    assert (set x | x in c.order) == c.params.Keys;
  }

  /** A turn that fails leaves the records as they were and names a reference or the
      fresh id that the original records could not satisfy. */
  lemma StepFailed(c: ConfigArg, i: nat, updated: Params, fileId: string,
                   records: map<string, Files.FileRecord>, workDir: string, old0: map<string, Files.FileRecord>)
    requires WellOrdered(c) && i < |c.order|
    requires Handled(c, c.order[..i], updated, fileId, records, workDir, old0)
    requires
      || (c.order[i] == "file_id" && c.params["file_id"] !in records)
      || (c.order[i] == "file_ids" && exists s :: s in Split(c.params["file_ids"], ',') && s !in records)
      || (c.order[i] == "file_name" && c.freshId in records)
    ensures old0.Keys <= records.Keys
    ensures !(ReferencedIds(c.params) <= old0.Keys && c.freshId !in old0)
  {
    StepFacts(c, i, updated, fileId, records, workDir, old0);
  }

  /** What HandleInternalConfig has established once the keys in `seen` are handled:
      the original keys keep their values except the ones added so far, the output
      file exists exactly once file_name was seen, and the ids of file_id and file_ids,
      once seen, have records and their paths. */
  ghost predicate Handled(c: ConfigArg, seen: seq<string>, updated: Params, fileId: string,
                          records: map<string, Files.FileRecord>, workDir: string,
                          old0: map<string, Files.FileRecord>)
  {
    && updated.Keys == c.params.Keys + Introduced(set x | x in seen)
    && (forall k :: k in c.params && k !in Introduced(set x | x in seen) ==> updated[k] == c.params[k])
    && ("file_name" !in seen ==> fileId == "" && records == old0)
    && ("file_name" in seen ==>
         (fileId == c.freshId && c.freshId !in old0 && "file_name" in c.params
          && records == old0[c.freshId := OutputRecord(c.params)]))
    && ("file_id" in seen ==> "file_id" in c.params && c.params["file_id"] in records)
    && ("file_ids" in seen ==>
         ("file_ids" in c.params
          && (forall j :: 0 <= j < |Split(c.params["file_ids"], ',')| ==> Split(c.params["file_ids"], ',')[j] in records)
          && updated["file_paths"] == Join(RecordPaths(records, workDir, Split(c.params["file_ids"], ',')), ",")))
    && ("file_id" in seen && "file_name" !in c.params ==>
         updated["file_path"] == RecordPath(records, workDir, c.params["file_id"]))
    && ("file_name" in seen && "file_id" !in c.params ==>
         updated["file_path"] == RecordPath(records, workDir, c.freshId))
  }

  /** One turn of HandleInternalConfig's loop, on the i-th key in iteration order. A
      failure names a reference without a record or an output-file id already taken. */
  method Step(c: ConfigArg, i: nat, updated: Params, fileId: string, files: Files.Store,
              ghost old0: map<string, Files.FileRecord>)
    returns (updated': Params, fileId': string, err: Option<string>)
    requires WellOrdered(c) && i < |c.order|
    requires Handled(c, c.order[..i], updated, fileId, files.records, files.workDir, old0)
    modifies files
    ensures files.links == old(files.links) && files.disk == old(files.disk)
    ensures err.None? ==> Handled(c, c.order[..i + 1], updated', fileId', files.records, files.workDir, old0)
    ensures err.Some? ==> files.records == old(files.records) && err.value == InvalidConfig(c.order[i])
    ensures err.Some? ==>
      || (c.order[i] == "file_id" && c.params["file_id"] !in files.records)
      || (c.order[i] == "file_ids" && exists s :: s in Split(c.params["file_ids"], ',') && s !in files.records)
      || (c.order[i] == "file_name" && c.freshId in files.records)
  {
    var k := c.order[i];
    var ext := if "file_ext" in updated then updated["file_ext"] else "";
    StepFacts(c, i, updated, fileId, files.records, files.workDir, old0);
    ghost var before := files.records;
    var entry, e := HandleKey(k, c.params[k], ext, c.freshId, files);
    if e.Some? {
      return updated, fileId, e;
    }
    updated', fileId', err := updated, fileId, None;
    if entry.Some? {
      updated' := updated[entry.value.0 := entry.value.1];
    }
    if k == "file_name" {
      fileId' := c.freshId;
      HandledName(c, c.order[..i], updated, fileId, before, files.records, files.workDir, old0, updated');
    } else if k == "file_id" {
      HandledId(c, c.order[..i], updated, fileId, files.records, files.workDir, old0, updated');
    } else if k == "file_ids" {
      HandledIds(c, c.order[..i], updated, fileId, files.records, files.workDir, old0, updated');
    } else {
      HandledOther(c, c.order[..i], k, updated, fileId, files.records, files.workDir, old0);
    }
  }

  /** Facts about the i-th turn that hold before it starts: the key is new and the
      extension read from the map so far is the configured one. */
  lemma StepFacts(c: ConfigArg, i: nat, updated: Params, fileId: string,
                  records: map<string, Files.FileRecord>, workDir: string, old0: map<string, Files.FileRecord>)
    requires WellOrdered(c) && i < |c.order|
    requires Handled(c, c.order[..i], updated, fileId, records, workDir, old0)
    ensures c.order[..i + 1] == c.order[..i] + [c.order[i]]
    ensures c.order[i] !in c.order[..i]
    ensures (if "file_ext" in updated then updated["file_ext"] else "") == Setting(c.params, "file_ext")
  {
    assert c.order[..i + 1] == c.order[..i] + [c.order[i]];
    forall j | 0 <= j < i ensures c.order[..i][j] != c.order[i] { }
    assert "file_ext" !in Introduced(set x | x in c.order[..i]);
  }

  lemma HandledOther(c: ConfigArg, seen: seq<string>, k: string, updated: Params, fileId: string,
                     records: map<string, Files.FileRecord>, workDir: string, old0: map<string, Files.FileRecord>)
    requires k != "file_id" && k != "file_ids" && k != "file_name"
    requires Handled(c, seen, updated, fileId, records, workDir, old0)
    ensures Handled(c, seen + [k], updated, fileId, records, workDir, old0)
  {
    forall x | x in ["file_id", "file_ids", "file_name"] ensures x in seen + [k] <==> x in seen { }
    assert Introduced(set x | x in seen + [k]) == Introduced(set x | x in seen);
  }

  lemma HandledId(c: ConfigArg, seen: seq<string>, updated: Params, fileId: string,
                  records: map<string, Files.FileRecord>, workDir: string, old0: map<string, Files.FileRecord>,
                  updated': Params)
    requires "file_id" !in seen && "file_id" in c.params && c.params["file_id"] in records
    requires updated' == updated["file_path" := RecordPath(records, workDir, c.params["file_id"])]
    requires Handled(c, seen, updated, fileId, records, workDir, old0)
    ensures Handled(c, seen + ["file_id"], updated', fileId, records, workDir, old0)
  {
    forall x | x in ["file_ids", "file_name"] ensures x in seen + ["file_id"] <==> x in seen { }
    assert Introduced(set x | x in seen + ["file_id"]) == Introduced(set x | x in seen) + {"file_path"};
  }

  lemma HandledIds(c: ConfigArg, seen: seq<string>, updated: Params, fileId: string,
                   records: map<string, Files.FileRecord>, workDir: string, old0: map<string, Files.FileRecord>,
                   updated': Params)
    requires "file_ids" !in seen && "file_ids" in c.params
    requires forall j :: 0 <= j < |Split(c.params["file_ids"], ',')| ==> Split(c.params["file_ids"], ',')[j] in records
    requires updated' == updated["file_paths" := Join(RecordPaths(records, workDir, Split(c.params["file_ids"], ',')), ",")]
    requires Handled(c, seen, updated, fileId, records, workDir, old0)
    ensures Handled(c, seen + ["file_ids"], updated', fileId, records, workDir, old0)
  {
    forall x | x in ["file_id", "file_name"] ensures x in seen + ["file_ids"] <==> x in seen { }
    assert Introduced(set x | x in seen + ["file_ids"]) == Introduced(set x | x in seen) + {"file_paths"};
  }

  lemma HandledName(c: ConfigArg, seen: seq<string>, updated: Params, fileId: string,
                    records: map<string, Files.FileRecord>, records': map<string, Files.FileRecord>,
                    workDir: string, old0: map<string, Files.FileRecord>, updated': Params)
    requires "file_name" !in seen && "file_name" in c.params && c.freshId !in records
    requires records' == records[c.freshId := OutputRecord(c.params)]
    requires updated' == updated["file_path" := RecordPath(records', workDir, c.freshId)]
    requires Handled(c, seen, updated, fileId, records, workDir, old0)
    ensures Handled(c, seen + ["file_name"], updated', c.freshId, records', workDir, old0)
  {
    forall x | x in ["file_id", "file_ids"] ensures x in seen + ["file_name"] <==> x in seen { }
    assert Introduced(set x | x in seen + ["file_name"]) == Introduced(set x | x in seen) + {"file_path"};
    if "file_ids" in seen {
      RecordPathsGrow(records, records', workDir, Split(c.params["file_ids"], ','));
    }
  }

  // ---------------------------------------------------------------------------
  // The engine

  class Engine {
    const id: string
    const batchSize: int
    const channelSize: int
    /** Every call made on the components so far. */
    var trace: seq<Event>

    /** NewEngine: non-positive sizes fall back to the defaults. */
    constructor(id: string, config: Config)
      ensures this.id == id && trace == []
      ensures config.batchSize > 0 ==> batchSize == config.batchSize
      ensures config.batchSize <= 0 ==> batchSize == DefaultBatchSize
      ensures config.channelSize > 0 ==> channelSize == config.channelSize
      ensures config.channelSize <= 0 ==> channelSize == DefaultChannelSize
    {
      this.id := id;
      batchSize := Effective(config.batchSize, DefaultBatchSize);
      channelSize := Effective(config.channelSize, DefaultChannelSize);
      trace := [];
    }

    predicate Valid()
      reads this
    {
      batchSize > 0 && channelSize > 0
    }

    /** One record through the processor workers, starting at the given check number. */
    method PassThrough(ps: seq<ProcessorPlugin>, r: Record, checks: nat, ext: Option<nat>) returns (passage: Passage)
      ensures passage == Through(ps, 0, r, checks, ext)
    {
      var i := 0;
      var current := r;
      var c := checks;
      while i < |ps|
        invariant 0 <= i <= |ps|
        invariant Through(ps, i, current, c, ext) == Through(ps, 0, r, checks, ext)
      {
        if Seen(ext, c) {
          return Halted(c + 1, []);
        }
        match ps[i].process(current)
        case ProcessFailure(m) =>
          return Halted(c + 1, ["processor " + ProcessorLabel(i, ps[i].typeName) + " error: " + m]);
        case Filtered =>
          return Dropped(c + 1);
        case Emit(out) =>
          current := out;
          c := c + 1;
          i := i + 1;
      }
      return Arrived(current, c);
    }

    /** The flush at the end of runSink. */
    method Flush(p: Plugins, readCalls: nat, batch: seq<Record>, writes: seq<seq<Record>>, errs: seq<string>)
      returns (end: StreamEnd)
      ensures end == FinalFlush(p, readCalls, batch, writes, errs)
    {
      end := StreamEnd(readCalls, writes, errs);
      if |batch| > 0 {
        var w := p.write(|writes|, batch);
        if w.Fail? {
          end := StreamEnd(readCalls, writes + [batch], errs + ["sink error on final flush: " + w.msg]);
        } else {
          end := StreamEnd(readCalls, writes + [batch], errs);
        }
      }
    }

    /** runSource, runProcessor and runSink together, record by record. */
    method RunStages(p: Plugins, ext: Option<nat>) returns (end: StreamEnd)
      requires Valid()
      ensures end == Stream(p, batchSize, ext)
    {
      var k := 0;
      var checks := 0;
      var batch: seq<Record> := [];
      var writes: seq<seq<Record>> := [];
      var errs: seq<string> := [];
      while true
        invariant k <= |p.answers|
        invariant StreamFrom(p, batchSize, ext, k, checks, batch, writes, errs) == Stream(p, batchSize, ext)
        decreases |p.answers| - k
      {
        if Seen(ext, checks) {
          end := Flush(p, k, batch, writes, errs);
          return;
        }
        var read := ReadAt(p.answers, k);
        match read
        case EndOfData =>
          end := Flush(p, k + 1, batch, writes, errs);
          return;
        case ReadFailure(m) =>
          end := Flush(p, k + 1, batch, writes, errs + ["source error: " + m]);
          return;
        case Row(r) =>
          var passage := PassThrough(p.processors, r, checks + 1, ext);
          match passage
          case Dropped(c) =>
            k, checks := k + 1, c;
          case Halted(c, e) =>
            end := Flush(p, k + 1, batch, writes, errs + e);
            return;
          case Arrived(out, c) =>
            if Seen(ext, c) {
              return StreamEnd(k + 1, writes, errs);
            }
            batch := batch + [out];
            if |batch| >= batchSize {
              var w := p.write(|writes|, batch);
              writes := writes + [batch];
              if w.Fail? {
                return StreamEnd(k + 1, writes, errs + ["sink error: " + w.msg]);
              }
              batch := [];
            }
            k, checks := k + 1, c + 1;
      }
    }

    /** The deferred closer, without output-file saving. */
    method CloseAll(p: Plugins, err: Option<string>) returns (result: Option<string>)
      modifies this
      ensures trace == old(trace) + Closing(p, err).0
      ensures result == Closing(p, err).1
    {
      trace := trace + [SinkClosed];
      result := KeepFirst(err, p.sinkClose, "sink");
      var i := |p.processors|;
      ghost var e1 := result;
      ghost var start := trace;
      while i > 0
        invariant 0 <= i <= |p.processors|
        invariant start + CloseProcessors(p, |p.processors|, e1).0 == trace + CloseProcessors(p, i, result).0
        invariant CloseProcessors(p, |p.processors|, e1).1 == CloseProcessors(p, i, result).1
        decreases i
      {
        ghost var rest := CloseProcessors(p, i - 1, KeepFirst(result, p.processors[i - 1].close,
          "processor " + ProcessorLabel(i - 1, p.processors[i - 1].typeName)));
        assert CloseProcessors(p, i, result).0 == [ProcessorClosed(i - 1)] + rest.0;
        assert trace + ([ProcessorClosed(i - 1)] + rest.0) == (trace + [ProcessorClosed(i - 1)]) + rest.0;
        trace := trace + [ProcessorClosed(i - 1)];
        result := KeepFirst(result, p.processors[i - 1].close, "processor " + ProcessorLabel(i - 1, p.processors[i - 1].typeName));
        i := i - 1;
      }
      assert trace == start + CloseProcessors(p, |p.processors|, e1).0;
      trace := trace + [SourceClosed];
      result := KeepFirst(result, p.sourceClose, "source");
    }

    /** HandleColumns then Open on each processor in turn, from the source's mapping;
        `base + events` is the trace so far. */
    method OpenChain(p: Plugins, cfg: seq<Params>, ghost base: seq<Event>, ghost events: seq<Event>)
      returns (columns: Mapping, failure: Option<string>)
      requires |cfg| == |p.processors| && trace == base + events
      modifies this
      ensures trace == base + OpenProcessors(p, cfg, 0, p.column, events).events
      ensures failure == OpenProcessors(p, cfg, 0, p.column, events).failure
      ensures failure.None? ==> columns == OpenProcessors(p, cfg, 0, p.column, events).columns
    {
      columns := p.column;
      ghost var ev := events;
      ghost var whole := OpenProcessors(p, cfg, 0, p.column, events);
      var i := 0;
      while i < |p.processors|
        invariant 0 <= i <= |p.processors|
        invariant trace == base + ev
        invariant OpenProcessors(p, cfg, i, columns, ev) == whole
      {
        columns := p.processors[i].handleColumns(columns);
        ev := ev + [ColumnsHandled(i), ProcessorOpened(i)];
        trace := trace + [ColumnsHandled(i), ProcessorOpened(i)];
        var po := p.processors[i].open(cfg[i]);
        if po.Fail? {
          return columns, Some("pipeline: failed to open processor " + ProcessorLabel(i, p.processors[i].typeName) + ": " + po.msg);
        }
        i := i + 1;
      }
      failure := None;
    }

    /** The opening sequence. */
    method Open(p: Plugins, r: Resolved) returns (failure: Option<string>)
      requires |r.processors| == |p.processors|
      modifies this
      ensures trace == old(trace) + Setup(p, r).events
      ensures failure == Setup(p, r).failure
    {
      if r.before.Some? {
        trace := trace + [BeforeOpened];
        var o := p.before.open(r.before.value);
        if o.Fail? {
          return Some("pipeline: failed to open before executor: " + o.msg);
        }
        trace := trace + [BeforeClosed];
        if p.before.close.Fail? {
          return Some("pipeline: failed to close before executor: " + p.before.close.msg);
        }
      }
      ghost var ev := OpenBefore(p, r.before).events + [SourceOpened];
      trace := trace + [SourceOpened];
      assert trace == old(trace) + ev;
      var so := p.sourceOpen(r.source);
      if so.Fail? {
        return Some("pipeline: failed to open source: " + so.msg);
      }
      var columns, pf := OpenChain(p, r.processors, old(trace), ev);
      if pf.Some? {
        return pf;
      }
      trace := trace + [SinkOpened(columns)];
      var sk := p.sinkOpen(r.sink, columns);
      if sk.Fail? {
        return Some("pipeline: failed to open sink: " + sk.msg);
      }
      return None;
    }

    /** Joins the worker errors in the order they were received. */
    method CollectErrors(errs: seq<string>) returns (finalErr: Option<string>)
      ensures finalErr == JoinErrors(errs)
    {
      finalErr := None;
      var i := 0;
      while i < |errs|
        invariant 0 <= i <= |errs|
        invariant finalErr == JoinErrors(errs[..i])
      {
        if finalErr.None? {
          finalErr := Some(errs[i]);
        } else {
          JoinSnoc(errs[..i], errs[i], "; ");
          finalErr := Some(finalErr.value + "; " + errs[i]);
        }
        assert errs[..i + 1] == errs[..i] + [errs[i]];
        i := i + 1;
      }
      assert errs[..i] == errs;
    }

    /** The after executor: opened and closed once the workers finished without error. */
    method RunAfter(p: Plugins, after: Option<Params>) returns (err: Option<string>)
      modifies this
      ensures trace == old(trace) + AfterPhase(p, after).0
      ensures err == AfterPhase(p, after).1
    {
      err := None;
      if after.Some? {
        trace := trace + [AfterOpened];
        var o := p.after.open(after.value);
        if o.Fail? {
          return Some("pipeline: failed to open after executor: " + o.msg);
        }
        trace := trace + [AfterClosed];
        if p.after.close.Fail? {
          return Some("pipeline: failed to close after executor: " + p.after.close.msg);
        }
      }
    }

    /** Everything after a successful opening sequence. */
    method Continue(p: Plugins, after: Option<Params>, ext: Option<nat>) returns (err: Option<string>)
      requires Valid()
      modifies this
      ensures trace == old(trace) + Proceed(p, after, batchSize, ext).events
      ensures err == Proceed(p, after, batchSize, ext).err
    {
      var end := RunStages(p, ext);
      err := WindDown(p, after, end);
    }

    /** The writes of a finished stream, then the worker errors, the after executor and
        the closer. */
    method WindDown(p: Plugins, after: Option<Params>, end: StreamEnd) returns (err: Option<string>)
      modifies this
      ensures trace == old(trace) + Wind(p, after, end).events
      ensures err == Wind(p, after, end).err
    {
      ghost var start := trace;
      var written := WrittenEvents(end.writes);
      trace := trace + written;
      var workerErr := CollectErrors(end.errs);
      if workerErr.Some? {
        err := CloseAll(p, workerErr);
        assert trace == start + (written + Closing(p, workerErr).0);
      } else {
        err := AfterAndClose(p, after);
        assert trace == start + (written + Finish(p, after).0);
      }
    }

    /** Runs the after executor, then closes everything with its error. */
    method AfterAndClose(p: Plugins, after: Option<Params>) returns (err: Option<string>)
      modifies this
      ensures trace == old(trace) + Finish(p, after).0
      ensures err == Finish(p, after).1
    {
      ghost var start := trace;
      var afterErr := RunAfter(p, after);
      err := CloseAll(p, afterErr);
      assert trace == start + (AfterPhase(p, after).0 + Closing(p, afterErr).0);
    }

    /** The part of Run between preparing the configurations and saving the
        output files: open, stream, after executor, close. */
    method Execute(p: Plugins, r: Resolved, ext: Option<nat>) returns (err: Option<string>)
      requires Valid()
      requires |r.processors| == |p.processors|
      modifies this
      ensures trace == old(trace) + RunSpec(p, r, batchSize, ext).events
      ensures err == RunSpec(p, r, batchSize, ext).err
    {
      var failure := Open(p, r);
      err := Launched(p, r.after, ext, failure);
      assert trace == old(trace) + (Setup(p, r).events + Launch(p, failure, r.after, batchSize, ext).events);
    }

    /** Closing after a failed opening sequence, or Continue after a good one. */
    method Launched(p: Plugins, after: Option<Params>, ext: Option<nat>, failure: Option<string>)
      returns (err: Option<string>)
      requires Valid()
      modifies this
      ensures trace == old(trace) + Launch(p, failure, after, batchSize, ext).events
      ensures err == Launch(p, failure, after, batchSize, ext).err
    {
      if failure.Some? {
        err := CloseAll(p, failure);
      } else {
        err := Continue(p, after, ext);
      }
    }

    /** Run: prepares every configuration, then opens, streams, runs the after
        executor and closes; output files of the run are kept on success and
        deleted on failure. `prepared` is the file records once every
        configuration is handled: each configuration is resolved against them,
        and the store then ends as SaveOutputFile leaves it, told whether the
        run failed. */
    method Run(p: Plugins, ext: Option<nat>, before: Option<ConfigArg>, source: ConfigArg,
               processors: seq<ConfigArg>, sink: ConfigArg, after: Option<ConfigArg>, files: Files.Store)
      returns (err: Option<string>, resolved: Option<Resolved>, fileIds: seq<string>,
               ghost prepared: map<string, Files.FileRecord>)
      requires Valid()
      requires |processors| == |p.processors|
      requires before.Some? ==> WellOrdered(before.value)
      requires after.Some? ==> WellOrdered(after.value)
      requires WellOrdered(source) && WellOrdered(sink)
      requires forall i :: 0 <= i < |processors| ==> WellOrdered(processors[i])
      modifies this, files
      ensures Extends(old(files.records), prepared)
      ensures FreshIds(fileIds, prepared, old(files.records))
      ensures resolved.None? ==>
        && trace == old(trace) && err.Some? && fileIds == []
        && files.State() == Files.StoreState(prepared, old(files.links), old(files.disk))
      ensures resolved.Some? ==>
        && |resolved.value.processors| == |p.processors|
        && trace == old(trace) + RunSpec(p, resolved.value, batchSize, ext).events
        && (fileIds == [] ==> err == RunSpec(p, resolved.value, batchSize, ext).err)
        && (RunSpec(p, resolved.value, batchSize, ext).err.Some? ==> err.Some?)
      ensures resolved.Some? ==>
        AllApplied(Handling(before, source, processors, sink, after), ResolvedList(resolved.value),
                   prepared, files.workDir)
      ensures resolved.Some? ==>
        var runErr := RunSpec(p, resolved.value, batchSize, ext).err;
        var (st, saveErrs) := Files.Save(Files.StoreState(prepared, old(files.links), old(files.disk)),
                                         id, fileIds, runErr.Some?, false);
        && files.State() == st
        && err == (if saveErrs == [] then runErr
                   else Some(JoinError(runErr, "pipeline: failed to save output file: " + Join(saveErrs, "\n"))))
    {
      var e;
      resolved, fileIds, e := Prepare(before, source, processors, sink, after, files);
      prepared := files.records;
      if e.Some? {
        return Some("pipeline: failed to handle internal config: " + e.value), None, [], prepared;
      }
      err := Execute(p, resolved.value, ext);
      if |fileIds| > 0 {
        var saveErrs := files.SaveOutputFile(this.id, fileIds, err.Some?);
        if |saveErrs| > 0 {
          err := Some(JoinError(err, "pipeline: failed to save output file: " + Join(saveErrs, "\n")));
        }
      }
    }
  }

  /** One HandleInternalConfig call of Run, appending the created output file's id.
      The configurations handled before it, `cs` with their results `ps`, stay resolved. */
  method PrepareOne(config: Option<ConfigArg>, files: Files.Store, ids: seq<string>,
                    ghost old0: map<string, Files.FileRecord>, ghost cs: seq<ConfigArg>, ghost ps: seq<Params>)
    returns (params: Params, fileIds: seq<string>, err: Option<string>)
    requires config.Some? ==> WellOrdered(config.value)
    requires Extends(old0, files.records) && FreshIds(ids, files.records, old0)
    requires AllApplied(cs, ps, files.records, files.workDir)
    modifies files
    ensures files.links == old(files.links) && files.disk == old(files.disk)
    ensures old(files.records).Keys <= files.records.Keys
    ensures err.None? ==>
      (fileIds == ids || (|fileIds| == |ids| + 1 && fileIds[..|ids|] == ids
                          && fileIds[|ids|] in files.records && fileIds[|ids|] !in old(files.records)))
    ensures err.Some? ==> fileIds == ids
    ensures Extends(old(files.records), files.records)
    ensures Extends(old0, files.records) && FreshIds(fileIds, files.records, old0)
    ensures err.None? ==>
      AllApplied(cs + Present(config), ps + Kept(config, params), files.records, files.workDir)
  {
    var fid;
    ghost var r0 := files.records;
    params, fid, err := HandleInternalConfig(config, files);
    fileIds := ids;
    if err.None? {
      AllAppliedGrow(cs, ps, r0, files.records, files.workDir);
      if config.Some? {
        AllAppliedSnoc(cs, ps, config.value, params, files.records, files.workDir);
      } else {
        assert cs + Present(config) == cs && ps + Kept(config, params) == ps;
      }
      if fid != "" {
        fileIds := ids + [fid];
      }
    }
  }

  /** Every collected id names a file record created since `old0`. */
  ghost predicate FreshIds(ids: seq<string>, records: map<string, Files.FileRecord>,
                           old0: map<string, Files.FileRecord>)
  {
    forall j :: 0 <= j < |ids| ==> ids[j] in records && ids[j] !in old0
  }

  /** An optional configuration as a list of zero or one. */
  function Present(config: Option<ConfigArg>): seq<ConfigArg>
  {
    if config.Some? then [config.value] else []
  }

  /** The result for an optional configuration, listed when the configuration is. */
  function Kept(config: Option<ConfigArg>, params: Params): seq<Params>
  {
    if config.Some? then [params] else []
  }

  /** The configurations in the order Run hands them to HandleInternalConfig. */
  function Handling(before: Option<ConfigArg>, source: ConfigArg, processors: seq<ConfigArg>,
                    sink: ConfigArg, after: Option<ConfigArg>): seq<ConfigArg>
  {
    Present(before) + Present(after) + [source] + [sink] + processors
  }

  /** The resolved configurations in the same order. */
  function ResolvedList(r: Resolved): seq<Params>
  {
    (if r.before.Some? then [r.before.value] else []) + (if r.after.Some? then [r.after.value] else [])
    + [r.source] + [r.sink] + r.processors
  }

  /** Each configuration of `cs` resolved to the parameters at the same place in `ps`. */
  ghost predicate AllApplied(cs: seq<ConfigArg>, ps: seq<Params>, records: map<string, Files.FileRecord>, workDir: string)
  {
    |cs| == |ps| && forall i :: 0 <= i < |cs| ==> Applied(cs[i], ps[i], records, workDir)
  }

  lemma AllAppliedGrow(cs: seq<ConfigArg>, ps: seq<Params>, records: map<string, Files.FileRecord>,
                       records': map<string, Files.FileRecord>, workDir: string)
    requires AllApplied(cs, ps, records, workDir) && Extends(records, records')
    ensures AllApplied(cs, ps, records', workDir)
  {
    forall i | 0 <= i < |cs| ensures Applied(cs[i], ps[i], records', workDir) {
      AppliedGrow(cs[i], ps[i], records, records', workDir);
    }
  }

  lemma AllAppliedSnoc(cs: seq<ConfigArg>, ps: seq<Params>, c: ConfigArg, p: Params,
                       records: map<string, Files.FileRecord>, workDir: string)
    requires AllApplied(cs, ps, records, workDir) && Applied(c, p, records, workDir)
    ensures AllApplied(cs + [c], ps + [p], records, workDir)
  {
    forall i | 0 <= i < |cs| + 1 ensures Applied((cs + [c])[i], (ps + [p])[i], records, workDir) {
      if i < |cs| { assert (cs + [c])[i] == cs[i] && (ps + [p])[i] == ps[i]; }
    }
  }

  /** The first half of Run: HandleInternalConfig on the before, after, source
      and sink configurations and then on each processor's, collecting the ids
      of the output files created. The first error ends it. On success every
      configuration, in that order, is resolved against the records it leaves. */
  method Prepare(before: Option<ConfigArg>, source: ConfigArg, processors: seq<ConfigArg>,
                 sink: ConfigArg, after: Option<ConfigArg>, files: Files.Store)
    returns (resolved: Option<Resolved>, fileIds: seq<string>, err: Option<string>)
    requires before.Some? ==> WellOrdered(before.value)
    requires after.Some? ==> WellOrdered(after.value)
    requires WellOrdered(source) && WellOrdered(sink)
    requires forall i :: 0 <= i < |processors| ==> WellOrdered(processors[i])
    modifies files
    ensures err.Some? <==> resolved.None?
    ensures err.Some? ==> fileIds == []
    ensures resolved.Some? ==>
      && |resolved.value.processors| == |processors|
      && resolved.value.before.Some? == before.Some?
      && resolved.value.after.Some? == after.Some?
    ensures forall i :: 0 <= i < |fileIds| ==> fileIds[i] in files.records && fileIds[i] !in old(files.records)
    ensures files.links == old(files.links) && files.disk == old(files.disk)
    ensures Extends(old(files.records), files.records)
    ensures resolved.Some? ==>
      AllApplied(Handling(before, source, processors, sink, after), ResolvedList(resolved.value),
                 files.records, files.workDir)
  {
    var beforeParams, afterParams, sourceParams, sinkParams;
    beforeParams, afterParams, sourceParams, sinkParams, fileIds, err := PrepareFixed(before, source, sink, after, files);
    if err.Some? { return None, [], err; }
    ghost var cs := Present(before) + Present(after) + [source] + [sink];
    ghost var ps := Kept(before, beforeParams) + Kept(after, afterParams) + [sourceParams] + [sinkParams];
    var processorParams;
    processorParams, fileIds, err := PrepareProcessors(processors, files, fileIds, old(files.records), cs, ps);
    if err.Some? { return None, [], err; }
    resolved := Some(Resolved(if before.Some? then Some(beforeParams) else None, sourceParams, processorParams,
                              sinkParams, if after.Some? then Some(afterParams) else None));
    assert ResolvedList(resolved.value) == ps + processorParams;
  }

  /** The before, after, source and sink configurations, in that order. */
  method PrepareFixed(before: Option<ConfigArg>, source: ConfigArg, sink: ConfigArg,
                      after: Option<ConfigArg>, files: Files.Store)
    returns (beforeParams: Params, afterParams: Params, sourceParams: Params, sinkParams: Params,
             fileIds: seq<string>, err: Option<string>)
    requires before.Some? ==> WellOrdered(before.value)
    requires after.Some? ==> WellOrdered(after.value)
    requires WellOrdered(source) && WellOrdered(sink)
    modifies files
    ensures old(files.records).Keys <= files.records.Keys
    ensures FreshIds(fileIds, files.records, old(files.records))
    ensures files.links == old(files.links) && files.disk == old(files.disk)
    ensures Extends(old(files.records), files.records)
    ensures err.None? ==>
      AllApplied(Present(before) + Present(after) + [source] + [sink],
                 Kept(before, beforeParams) + Kept(after, afterParams) + [sourceParams] + [sinkParams],
                 files.records, files.workDir)
  {
    afterParams, sourceParams, sinkParams := map[], map[], map[];
    ghost var old0 := files.records;
    beforeParams, fileIds, err := PrepareOne(before, files, [], old0, [], []);
    if err.Some? { return; }
    assert [] + Present(before) == Present(before) && [] + Kept(before, beforeParams) == Kept(before, beforeParams);
    afterParams, fileIds, err := PrepareOne(after, files, fileIds, old0, Present(before), Kept(before, beforeParams));
    if err.Some? { return; }
    sourceParams, fileIds, err := PrepareOne(Some(source), files, fileIds, old0,
                                             Present(before) + Present(after),
                                             Kept(before, beforeParams) + Kept(after, afterParams));
    if err.Some? { return; }
    sinkParams, fileIds, err := PrepareOne(Some(sink), files, fileIds, old0,
                                           Present(before) + Present(after) + [source],
                                           Kept(before, beforeParams) + Kept(after, afterParams) + [sourceParams]);
  }

  /** HandleInternalConfig on each processor's configuration, in order. */
  method PrepareProcessors(processors: seq<ConfigArg>, files: Files.Store, ids: seq<string>,
                           ghost old0: map<string, Files.FileRecord>, ghost cs: seq<ConfigArg>, ghost ps: seq<Params>)
    returns (processorParams: seq<Params>, fileIds: seq<string>, err: Option<string>)
    requires forall i :: 0 <= i < |processors| ==> WellOrdered(processors[i])
    requires Extends(old0, files.records)
    requires FreshIds(ids, files.records, old0)
    requires AllApplied(cs, ps, files.records, files.workDir)
    modifies files
    ensures err.None? ==> |processorParams| == |processors|
    ensures Extends(old0, files.records) && FreshIds(fileIds, files.records, old0)
    ensures files.links == old(files.links) && files.disk == old(files.disk)
    ensures Extends(old(files.records), files.records)
    ensures err.None? ==> AllApplied(cs + processors, ps + processorParams, files.records, files.workDir)
  {
    processorParams, fileIds, err := [], ids, None;
    var i := 0;
    assert cs + processors[..0] == cs && ps + [] == ps;
    while i < |processors|
      invariant 0 <= i <= |processors|
      invariant |processorParams| == i
      invariant err.None?
      invariant files.links == old(files.links) && files.disk == old(files.disk)
      invariant Extends(old0, files.records) && FreshIds(fileIds, files.records, old0)
      invariant Extends(old(files.records), files.records)
      invariant AllApplied(cs + processors[..i], ps + processorParams, files.records, files.workDir)
    {
      var ps1;
      ps1, fileIds, err := PrepareOne(Some(processors[i]), files, fileIds, old0,
                                      cs + processors[..i], ps + processorParams);
      if err.Some? { return; }
      assert cs + processors[..i] + Present(Some(processors[i])) == cs + processors[..i + 1];
      assert ps + processorParams + Kept(Some(processors[i]), ps1) == ps + (processorParams + [ps1]);
      processorParams := processorParams + [ps1];
      i := i + 1;
    }
    assert processors[..i] == processors;
  }
}
