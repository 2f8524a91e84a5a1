// Properties of the pipeline engine model: the order of the opening and
// closing calls, which errors survive, and how the sink cuts the records that
// reach it into Write calls.
module PipelineProperties {
  import opened Wrappers
  import opened Values
  import opened Pipeline

  // ---------------------------------------------------------------------------
  // Batches

  function Flatten<T>(chunks: seq<seq<T>>): seq<T>
    decreases |chunks|
  {
    if |chunks| == 0 then [] else chunks[0] + Flatten(chunks[1..])
  }

  /** Consecutive pieces of s of b elements each, the last one possibly shorter. */
  function Chunks<T>(s: seq<T>, b: nat): seq<seq<T>>
    requires b > 0
    decreases |s|
  {
    if |s| == 0 then [] else if |s| <= b then [s] else [s[..b]] + Chunks(s[b..], b)
  }

  /** The pieces put back together give the sequence. */
  lemma {:induction false} ChunksFlatten<T>(s: seq<T>, b: nat)
    requires b > 0
    ensures Flatten(Chunks(s, b)) == s
    decreases |s|
  {
    if |s| > b {
      ChunksFlatten(s[b..], b);
      assert s == s[..b] + s[b..];
    }
  }

  /** There are ceil(|s| / b) pieces: every one but the last holds exactly b
      elements and the last holds between 1 and b. */
  lemma {:induction false} ChunksShape<T>(s: seq<T>, b: nat)
    requires b > 0
    ensures var c := Chunks(s, b);
      && (|c| == 0 <==> |s| == 0)
      && (|s| > 0 ==> (|c| - 1) * b < |s| <= |c| * b)
      && (forall i :: 0 <= i < |c| ==> 0 < |c[i]| <= b)
      && (forall i :: 0 <= i < |c| - 1 ==> |c[i]| == b)
    decreases |s|
  {
    if |s| > b {
      ChunksShape(s[b..], b);
      var rest := Chunks(s[b..], b);
      assert Chunks(s, b) == [s[..b]] + rest;
      assert (|rest| + 1) * b == |rest| * b + b;
    }
  }

  /** A full batch in front is a piece of its own. */
  lemma ChunksFull<T>(x: seq<T>, rest: seq<T>, b: nat)
    requires b > 0 && |x| == b
    ensures Chunks(x + rest, b) == [x] + Chunks(rest, b)
  {
    if |rest| > 0 {
      assert (x + rest)[..b] == x;
      assert (x + rest)[b..] == rest;
    } else {
      assert x + rest == x;
    }
  }

  // ---------------------------------------------------------------------------
  // A stream without cancellation, processor errors or sink errors

  /** The record that leaves the processors from processor i on, or None when one returns nil. */
  function Pipe(ps: seq<ProcessorPlugin>, i: nat, r: Record): Option<Record>
    requires i <= |ps|
    decreases |ps| - i
  {
    if i == |ps| then Some(r)
    else match ps[i].process(r)
      case Emit(out) => Pipe(ps, i + 1, out)
      case _ => None
  }

  ghost predicate NeverFail(ps: seq<ProcessorPlugin>)
  {
    forall i, r :: 0 <= i < |ps| ==> !ps[i].process(r).ProcessFailure?
  }

  ghost predicate WritesSucceed(p: Plugins)
  {
    forall n, batch :: p.write(n, batch) == Pass
  }

  /** The records that reach the sink from the k-th Read on, in source order. */
  function Outputs(p: Plugins, k: nat): seq<Record>
    decreases |p.answers| - k
  {
    if k >= |p.answers| then []
    else match p.answers[k]
      case Row(r) => (if Pipe(p.processors, 0, r).Some? then [Pipe(p.processors, 0, r).value] else []) + Outputs(p, k + 1)
      case _ => []
  }

  /** The number of the Read that ends the stream: the first answer that is not a record. */
  function StopAt(p: Plugins, k: nat): nat
    decreases |p.answers| - k
  {
    if k >= |p.answers| then k
    else if p.answers[k].Row? then StopAt(p, k + 1)
    else k
  }

  /** The error the source reports, if the stream ends on a Read error rather than io.EOF. */
  function SourceErrors(p: Plugins, k: nat): seq<string>
    decreases |p.answers| - k
  {
    if k >= |p.answers| then []
    else match p.answers[k]
      case Row(_) => SourceErrors(p, k + 1)
      case ReadFailure(m) => ["source error: " + m]
      case EndOfData => []
  }

  /** Without cancellation a record either leaves the last processor, after one
      check per processor, or is dropped by one that returned nil. */
  lemma {:induction false} ThroughUncancelled(ps: seq<ProcessorPlugin>, i: nat, r: Record, checks: nat)
    requires i <= |ps| && NeverFail(ps)
    ensures Pipe(ps, i, r).Some? ==> Through(ps, i, r, checks, None) == Arrived(Pipe(ps, i, r).value, checks + |ps| - i)
    ensures Pipe(ps, i, r).None? ==> Through(ps, i, r, checks, None).Dropped?
    decreases |ps| - i
  {
    if i < |ps| {
      assert !ps[i].process(r).ProcessFailure?;
      match ps[i].process(r)
      case Emit(out) => ThroughUncancelled(ps, i + 1, out, checks + 1);
      case Filtered =>
    }
  }

  lemma {:induction false} StreamFromNominal(p: Plugins, b: nat, k: nat, checks: nat,
                                             batch: seq<Record>, writes: seq<seq<Record>>, errs: seq<string>)
    requires b > 0 && k <= |p.answers| && |batch| < b
    requires NeverFail(p.processors) && WritesSucceed(p)
    ensures StreamFrom(p, b, None, k, checks, batch, writes, errs)
         == StreamEnd(StopAt(p, k) + 1, writes + Chunks(batch + Outputs(p, k), b), errs + SourceErrors(p, k))
    decreases |p.answers| - k, 1
  {
    if k == |p.answers| || !p.answers[k].Row? {
      NominalStop(p, b, k, checks, batch, writes, errs);
    } else {
      var r := p.answers[k].r;
      ThroughUncancelled(p.processors, 0, r, checks + 1);
      match Through(p.processors, 0, r, checks + 1, None)
      case Dropped(c) =>
        assert Outputs(p, k) == Outputs(p, k + 1);
        StreamFromNominal(p, b, k + 1, c, batch, writes, errs);
      case Arrived(out, c) =>
        NominalArrived(p, b, k, checks, batch, writes, errs, out, c);
    }
  }

  /** The stream stops at io.EOF or a Read error: the waiting batch is flushed. */
  lemma NominalStop(p: Plugins, b: nat, k: nat, checks: nat,
                    batch: seq<Record>, writes: seq<seq<Record>>, errs: seq<string>)
    requires b > 0 && k <= |p.answers| && |batch| < b && WritesSucceed(p)
    requires k == |p.answers| || !p.answers[k].Row?
    ensures StreamFrom(p, b, None, k, checks, batch, writes, errs)
         == StreamEnd(StopAt(p, k) + 1, writes + Chunks(batch + Outputs(p, k), b), errs + SourceErrors(p, k))
  {
    assert Outputs(p, k) == [];
    assert batch + Outputs(p, k) == batch;
    if |batch| == 0 {
      assert writes + Chunks(batch, b) == writes;
    }
    match ReadAt(p.answers, k)
    case EndOfData => assert SourceErrors(p, k) == [];
    case ReadFailure(m) =>
  }

  /** A record reaches the sink: it joins the batch, which is written once full. */
  lemma {:induction false} NominalArrived(p: Plugins, b: nat, k: nat, checks: nat,
                                          batch: seq<Record>, writes: seq<seq<Record>>, errs: seq<string>,
                                          out: Record, c: nat)
    requires b > 0 && k < |p.answers| && p.answers[k].Row? && |batch| < b
    requires NeverFail(p.processors) && WritesSucceed(p)
    requires Through(p.processors, 0, p.answers[k].r, checks + 1, None) == Arrived(out, c)
    requires Pipe(p.processors, 0, p.answers[k].r) == Some(out)
    ensures StreamFrom(p, b, None, k, checks, batch, writes, errs)
         == StreamEnd(StopAt(p, k) + 1, writes + Chunks(batch + Outputs(p, k), b), errs + SourceErrors(p, k))
    decreases |p.answers| - k, 0
  {
    assert Outputs(p, k) == [out] + Outputs(p, k + 1);
    assert batch + Outputs(p, k) == (batch + [out]) + Outputs(p, k + 1);
    if |batch| + 1 >= b {
      StreamFromNominal(p, b, k + 1, c + 1, [], writes + [batch + [out]], errs);
      ChunksFull(batch + [out], Outputs(p, k + 1), b);
      assert [] + Outputs(p, k + 1) == Outputs(p, k + 1);
    } else {
      StreamFromNominal(p, b, k + 1, c + 1, batch + [out], writes, errs);
    }
  }

  /** Without cancellation, processor errors or sink errors, the sink writes the
      records that reach it, in source order, cut into batches of b with a
      shorter last batch; the stream ends at the first io.EOF or Read error, and
      only a Read error is reported. */
  lemma StreamNominal(p: Plugins, b: nat)
    requires b > 0 && NeverFail(p.processors) && WritesSucceed(p)
    ensures Stream(p, b, None) == StreamEnd(StopAt(p, 0) + 1, Chunks(Outputs(p, 0), b), SourceErrors(p, 0))
  {
    StreamFromNominal(p, b, 0, 0, [], [], []);
    assert [] + Outputs(p, 0) == Outputs(p, 0);
  }

  /** The number of Write calls of such a stream is ceil(N / b) for the N records
      that reach the sink, and together they carry exactly those records. */
  lemma WriteCount(p: Plugins, b: nat)
    requires b > 0 && NeverFail(p.processors) && WritesSucceed(p)
    ensures var w := Stream(p, b, None).writes;
      && Flatten(w) == Outputs(p, 0)
      && (|Outputs(p, 0)| == 0 ==> |w| == 0)
      && (|Outputs(p, 0)| > 0 ==> (|w| - 1) * b < |Outputs(p, 0)| <= |w| * b)
  {
    StreamNominal(p, b);
    ChunksFlatten(Outputs(p, 0), b);
    ChunksShape(Outputs(p, 0), b);
  }

  // ---------------------------------------------------------------------------
  // Any stream: batch sizes and the number of errors

  predicate FullBatches(writes: seq<seq<Record>>, b: nat)
  {
    forall i :: 0 <= i < |writes| ==> |writes[i]| == b
  }

  lemma {:induction false} ThroughErrors(ps: seq<ProcessorPlugin>, i: nat, r: Record, checks: nat, ext: Option<nat>)
    requires i <= |ps|
    ensures Through(ps, i, r, checks, ext).Halted? ==> |Through(ps, i, r, checks, ext).errs| <= 1
    decreases |ps| - i
  {
    if i < |ps| && !Seen(ext, checks) {
      match ps[i].process(r)
      case Emit(out) => ThroughErrors(ps, i + 1, out, checks + 1, ext);
      case Filtered =>
      case ProcessFailure(_) =>
    }
  }

  /** Every batch holds between 1 and b records and all but the last exactly b. */
  predicate Shaped(writes: seq<seq<Record>>, b: nat)
  {
    && (forall i :: 0 <= i < |writes| ==> 0 < |writes[i]| <= b)
    && (forall i :: 0 <= i < |writes| - 1 ==> |writes[i]| == b)
  }

  lemma FlushShape(p: Plugins, b: nat, k: nat, batch: seq<Record>, writes: seq<seq<Record>>, errs: seq<string>)
    requires |batch| < b && FullBatches(writes, b)
    ensures Shaped(FinalFlush(p, k, batch, writes, errs).writes, b)
    ensures |errs| <= |FinalFlush(p, k, batch, writes, errs).errs| <= |errs| + 1
  {
  }

  lemma {:induction false} StreamFromWrites(p: Plugins, b: nat, ext: Option<nat>, k: nat, checks: nat,
                                            batch: seq<Record>, writes: seq<seq<Record>>, errs: seq<string>)
    requires b > 0 && k <= |p.answers| && |batch| < b && FullBatches(writes, b)
    ensures Shaped(StreamFrom(p, b, ext, k, checks, batch, writes, errs).writes, b)
    decreases |p.answers| - k
  {
    if Seen(ext, checks) {
      FlushShape(p, b, k, batch, writes, errs);
    } else {
      match ReadAt(p.answers, k)
      case EndOfData => FlushShape(p, b, k + 1, batch, writes, errs);
      case ReadFailure(m) => FlushShape(p, b, k + 1, batch, writes, errs + ["source error: " + m]);
      case Row(r) =>
        match Through(p.processors, 0, r, checks + 1, ext)
        case Dropped(c) => StreamFromWrites(p, b, ext, k + 1, c, batch, writes, errs);
        case Halted(c, e) => FlushShape(p, b, k + 1, batch, writes, errs + e);
        case Arrived(out, c) =>
          if Seen(ext, c) {
          } else if |batch| + 1 >= b {
            if p.write(|writes|, batch + [out]).Pass? {
              StreamFromWrites(p, b, ext, k + 1, c + 1, [], writes + [batch + [out]], errs);
            }
          } else {
            StreamFromWrites(p, b, ext, k + 1, c + 1, batch + [out], writes, errs);
          }
    }
  }

  lemma {:induction false} StreamFromErrors(p: Plugins, b: nat, ext: Option<nat>, k: nat, checks: nat,
                                            batch: seq<Record>, writes: seq<seq<Record>>, errs: seq<string>)
    requires b > 0 && k <= |p.answers|
    ensures |StreamFrom(p, b, ext, k, checks, batch, writes, errs).errs| <= |errs| + 2
    decreases |p.answers| - k
  {
    if !Seen(ext, checks) {
      match ReadAt(p.answers, k)
      case EndOfData =>
      case ReadFailure(m) =>
      case Row(r) =>
        ThroughErrors(p.processors, 0, r, checks + 1, ext);
        match Through(p.processors, 0, r, checks + 1, ext)
        case Dropped(c) => StreamFromErrors(p, b, ext, k + 1, c, batch, writes, errs);
        case Halted(c, e) =>
        case Arrived(out, c) =>
          if Seen(ext, c) {
          } else if |batch| + 1 >= b {
            if p.write(|writes|, batch + [out]).Pass? {
              StreamFromErrors(p, b, ext, k + 1, c + 1, [], writes + [batch + [out]], errs);
            }
          } else {
            StreamFromErrors(p, b, ext, k + 1, c + 1, batch + [out], writes, errs);
          }
    }
  }

  /** Whatever the schedule, cancellation or failures: every Write gets between
      1 and b records, every one but the last exactly b, and at most two worker
      errors are reported (a stage's own error and a failing final flush). */
  lemma StreamShape(p: Plugins, b: nat, ext: Option<nat>)
    requires b > 0
    ensures var end := Stream(p, b, ext);
      && (forall i :: 0 <= i < |end.writes| ==> 0 < |end.writes[i]| <= b)
      && (forall i :: 0 <= i < |end.writes| - 1 ==> |end.writes[i]| == b)
      && |end.errs| <= 2
  {
    StreamFromWrites(p, b, ext, 0, 0, [], [], []);
    StreamFromErrors(p, b, ext, 0, 0, [], [], []);
  }

  // ---------------------------------------------------------------------------
  // Opening order

  /** HandleColumns of processors i, i+1, ... applied in turn. */
  function Thread(ps: seq<ProcessorPlugin>, i: nat, columns: Mapping): Mapping
    requires i <= |ps|
    decreases |ps| - i
  {
    if i == |ps| then columns else Thread(ps, i + 1, ps[i].handleColumns(columns))
  }

  /** HandleColumns then Open for each processor from i to n-1. */
  function OpeningCalls(i: nat, n: nat): seq<Event>
    requires i <= n
    decreases n - i
  {
    if i == n then [] else [ColumnsHandled(i), ProcessorOpened(i)] + OpeningCalls(i + 1, n)
  }

  predicate IsOpening(e: Event)
  {
    e.BeforeOpened? || e.BeforeClosed? || e.SourceOpened? || e.ColumnsHandled? || e.ProcessorOpened? || e.SinkOpened?
  }

  lemma OpenProcessorsOrder(p: Plugins, cfg: seq<Params>, i: nat, columns: Mapping, events: seq<Event>)
    requires |cfg| == |p.processors| && i <= |p.processors|
    ensures var s := OpenProcessors(p, cfg, i, columns, events);
      && |events| <= |s.events| && s.events[..|events|] == events
      && (forall j :: |events| <= j < |s.events| ==> IsOpening(s.events[j]))
      && (s.failure.None? ==>
            s.events == events + OpeningCalls(i, |p.processors|) && s.columns == Thread(p.processors, i, columns))
  {
    OpenProcessorsExtend(p, cfg, i, columns, events);
    OpenProcessorsSuccess(p, cfg, i, columns, events);
  }

  /** The processor loop only appends, and only opening calls. */
  lemma {:induction false} OpenProcessorsExtend(p: Plugins, cfg: seq<Params>, i: nat, columns: Mapping, events: seq<Event>)
    requires |cfg| == |p.processors| && i <= |p.processors|
    ensures var s := OpenProcessors(p, cfg, i, columns, events);
      && |events| <= |s.events| && s.events[..|events|] == events
      && (forall j :: |events| <= j < |s.events| ==> IsOpening(s.events[j]))
    decreases |p.processors| - i
  {
    if i < |p.processors| {
      var ev := events + [ColumnsHandled(i), ProcessorOpened(i)];
      var handled := p.processors[i].handleColumns(columns);
      if p.processors[i].open(cfg[i]).Pass? {
        OpenProcessorsExtend(p, cfg, i + 1, handled, ev);
        var s := OpenProcessors(p, cfg, i + 1, handled, ev);
        assert s.events[..|events|] == s.events[..|ev|][..|events|];
        forall j | |events| <= j < |s.events|
          ensures IsOpening(s.events[j])
        {
          if j < |ev| {
            assert s.events[j] == s.events[..|ev|][j] == ev[j];
          }
        }
      }
    }
  }

  /** When every processor opens, the loop calls HandleColumns then Open on each
      in order and threads the mapping through all of them. */
  lemma {:induction false} OpenProcessorsSuccess(p: Plugins, cfg: seq<Params>, i: nat, columns: Mapping, events: seq<Event>)
    requires |cfg| == |p.processors| && i <= |p.processors|
    ensures var s := OpenProcessors(p, cfg, i, columns, events);
      s.failure.None? ==>
        s.events == events + OpeningCalls(i, |p.processors|) && s.columns == Thread(p.processors, i, columns)
    decreases |p.processors| - i
  {
    if i < |p.processors| {
      var ev := events + [ColumnsHandled(i), ProcessorOpened(i)];
      var handled := p.processors[i].handleColumns(columns);
      if p.processors[i].open(cfg[i]).Pass? {
        OpenProcessorsSuccess(p, cfg, i + 1, handled, ev);
        assert ev + OpeningCalls(i + 1, |p.processors|) == events + OpeningCalls(i, |p.processors|);
      }
    } else {
      assert events + [] == events;
    }
  }

  /** A successful opening sequence opens and closes the before executor (when
      there is one), opens the source, calls HandleColumns then Open on each
      processor in order, and opens the sink with the mapping every processor
      has edited in turn. */
  lemma SetupOrder(p: Plugins, r: Resolved)
    requires |r.processors| == |p.processors|
    requires Setup(p, r).failure.None?
    ensures Setup(p, r).events
         == (if r.before.Some? then [BeforeOpened, BeforeClosed] else []) + [SourceOpened]
            + OpeningCalls(0, |p.processors|) + [SinkOpened(Thread(p.processors, 0, p.column))]
  {
    var ev := OpenBefore(p, r.before).events + [SourceOpened];
    OpenProcessorsOrder(p, r.processors, 0, p.column, ev);
  }

  /** The opening sequence only opens things. */
  lemma SetupOnlyOpens(p: Plugins, r: Resolved)
    requires |r.processors| == |p.processors|
    ensures forall e :: e in Setup(p, r).events ==> IsOpening(e)
  {
    var before := OpenBefore(p, r.before);
    if before.failure.None? && p.sourceOpen(r.source).Pass? {
      var ev := before.events + [SourceOpened];
      OpenProcessorsExtend(p, r.processors, 0, p.column, ev);
      var procs := OpenProcessors(p, r.processors, 0, p.column, ev);
      forall j | 0 <= j < |procs.events|
        ensures IsOpening(procs.events[j])
      {
        if j < |ev| {
          assert procs.events[j] == procs.events[..|ev|][j] == ev[j];
        }
      }
      assert Setup(p, r).events == procs.events
          || Setup(p, r).events == procs.events + [SinkOpened(procs.columns)];
    }
  }

  // ---------------------------------------------------------------------------
  // Closing order and the surviving error

  /** Close on processors n-1 down to 0. */
  function Descending(n: nat): seq<Event>
  {
    if n == 0 then [] else [ProcessorClosed(n - 1)] + Descending(n - 1)
  }

  /** The Close answers of processors i-1 down to 0, each with how messages name it. */
  function ProcessorCloses(p: Plugins, i: nat): seq<(Outcome, string)>
    requires i <= |p.processors|
  {
    if i == 0 then []
    else [(p.processors[i - 1].close, "processor " + ProcessorLabel(i - 1, p.processors[i - 1].typeName))]
         + ProcessorCloses(p, i - 1)
  }

  /** Every Close answer in the order the closer asks for them. */
  function CloseAnswers(p: Plugins): seq<(Outcome, string)>
  {
    [(p.sinkClose, "sink")] + ProcessorCloses(p, |p.processors|) + [(p.sourceClose, "source")]
  }

  /** The first failing Close in a list, as the closer words it. */
  function FirstCloseError(answers: seq<(Outcome, string)>): Option<string>
  {
    if |answers| == 0 then None
    else if answers[0].0.Fail? then Some("pipeline: failed to close " + answers[0].1 + ": " + answers[0].0.msg)
    else FirstCloseError(answers[1..])
  }

  lemma {:induction false} FirstCloseErrorAppend(a: seq<(Outcome, string)>, b: seq<(Outcome, string)>)
    ensures FirstCloseError(a + b) == if FirstCloseError(a).Some? then FirstCloseError(a) else FirstCloseError(b)
    decreases |a|
  {
    if |a| > 0 {
      assert (a + b)[1..] == a[1..] + b;
      FirstCloseErrorAppend(a[1..], b);
    } else {
      assert a + b == b;
    }
  }

  lemma {:induction false} CloseProcessorsFacts(p: Plugins, i: nat, err: Option<string>)
    requires i <= |p.processors|
    ensures CloseProcessors(p, i, err).0 == Descending(i)
    ensures CloseProcessors(p, i, err).1 == if err.Some? then err else FirstCloseError(ProcessorCloses(p, i))
    decreases i
  {
    if i > 0 {
      var e := KeepFirst(err, p.processors[i - 1].close, "processor " + ProcessorLabel(i - 1, p.processors[i - 1].typeName));
      CloseProcessorsFacts(p, i - 1, e);
      assert ProcessorCloses(p, i)[1..] == ProcessorCloses(p, i - 1);
    }
  }

  /** The closer calls Close on the sink, on the processors from last to first
      and on the source, whatever happened before, and opened or not. */
  lemma ClosingOrder(p: Plugins, err: Option<string>)
    ensures Closing(p, err).0 == [SinkClosed] + Descending(|p.processors|) + [SourceClosed]
  {
    var e1 := KeepFirst(err, p.sinkClose, "sink");
    CloseProcessorsFacts(p, |p.processors|, e1);
  }

  /** An error the run already has survives the closer unchanged; otherwise the
      run's error is the first failing Close, and every later one is dropped. */
  lemma ClosingKeepsFirstError(p: Plugins, err: Option<string>)
    ensures Closing(p, err).1 == if err.Some? then err else FirstCloseError(CloseAnswers(p))
  {
    var e1 := KeepFirst(err, p.sinkClose, "sink");
    CloseProcessorsFacts(p, |p.processors|, e1);
    var procs := ProcessorCloses(p, |p.processors|);
    FirstCloseErrorAppend([(p.sinkClose, "sink")] + procs, [(p.sourceClose, "source")]);
    FirstCloseErrorAppend([(p.sinkClose, "sink")], procs);
    assert ([(p.sinkClose, "sink")] + procs)[1..] == procs;
    assert [(p.sourceClose, "source")][1..] == [];
  }

  // ---------------------------------------------------------------------------
  // A whole run

  /** When the opening sequence fails no worker runs: nothing is read or written. */
  lemma SetupFailureStartsNoWorker(p: Plugins, r: Resolved, b: nat, ext: Option<nat>)
    requires b > 0 && |r.processors| == |p.processors|
    requires Setup(p, r).failure.Some?
    ensures RunSpec(p, r, b, ext).stream.None?
    ensures forall e :: e in RunSpec(p, r, b, ext).events ==> !e.Written? && !e.AfterOpened?
    ensures RunSpec(p, r, b, ext).err == Setup(p, r).failure
  {
    SetupOnlyOpens(p, r);
    ClosingOrder(p, Setup(p, r).failure);
    ClosingKeepsFirstError(p, Setup(p, r).failure);
    var c := [SinkClosed] + Descending(|p.processors|) + [SourceClosed];
    DescendingOnlyCloses(|p.processors|);
    forall e | e in RunSpec(p, r, b, ext).events
      ensures !e.Written? && !e.AfterOpened?
    {
      assert e in Setup(p, r).events || e in c;
    }
  }

  lemma {:induction false} DescendingOnlyCloses(n: nat)
    ensures forall e :: e in Descending(n) ==> e.ProcessorClosed?
  {
    if n > 0 {
      DescendingOnlyCloses(n - 1);
    }
  }

  /** The after executor is opened exactly when the opening sequence succeeded,
      there is an after configuration and no worker reported an error. */
  lemma AfterRunsOnlyWithoutWorkerErrors(p: Plugins, r: Resolved, b: nat, ext: Option<nat>)
    requires b > 0 && |r.processors| == |p.processors|
    ensures AfterOpened in RunSpec(p, r, b, ext).events
        <==> Setup(p, r).failure.None? && r.after.Some? && Stream(p, b, ext).errs == []
  {
    if Setup(p, r).failure.Some? {
      SetupFailureStartsNoWorker(p, r, b, ext);
    } else {
      SetupOnlyOpens(p, r);
      var st := Stream(p, b, ext);
      AfterInWind(p, r.after, st);
      assert AfterOpened !in Setup(p, r).events;
      assert RunSpec(p, r, b, ext).events == Setup(p, r).events + Wind(p, r.after, st).events;
    }
  }

  /** After the stream, the after executor is opened exactly when there is an
      after configuration and no worker reported an error. */
  lemma AfterInWind(p: Plugins, after: Option<Params>, st: StreamEnd)
    ensures AfterOpened in Wind(p, after, st).events <==> after.Some? && st.errs == []
  {
    var w := WrittenEvents(st.writes);
    var workerErr := JoinErrors(st.errs);
    var a := AfterPhase(p, after);
    var closeErr := if workerErr.Some? then workerErr else a.1;
    ClosingOrder(p, closeErr);
    DescendingOnlyCloses(|p.processors|);
    var c := Closing(p, closeErr).0;
    assert AfterOpened !in w;
    assert AfterOpened !in c;
    if workerErr.Some? {
      assert Wind(p, after, st).events == w + c;
    } else {
      assert Wind(p, after, st).events == w + a.0 + c;
      assert after.Some? ==> AfterOpened in a.0;
    }
  }

  /** A run cancelled from outside before the first Read ends without a worker
      error, so it still runs the after executor when it has one. */
  lemma CancelledRunStillRunsAfter(p: Plugins, r: Resolved, b: nat)
    requires b > 0 && |r.processors| == |p.processors|
    requires Setup(p, r).failure.None? && r.after.Some?
    ensures Stream(p, b, Some(0)) == StreamEnd(0, [], [])
    ensures AfterOpened in RunSpec(p, r, b, Some(0)).events
  {
    AfterRunsOnlyWithoutWorkerErrors(p, r, b, Some(0));
  }
}
