// The CSV sink: writes a header line built from the column mapping's external names once,
// then one line per record with the %v text of the record's cell under each name.
module CsvSink {
  import opened Wrappers
  import opened Text
  import opened Values

  /** The field for a name: the %v text of the record's cell, "" when the record lacks it. */
  function Field(r: Record, name: string): string
  {
    if name in r then Format(r[name]) else ""
  }

  /** The line a record becomes: one field per header name, in header order. */
  function Project(header: seq<string>, r: Record): (line: seq<string>)
    ensures |line| == |header|
    ensures forall j :: 0 <= j < |header| ==> line[j] == Field(r, header[j])
  {
    seq(|header|, j requires 0 <= j < |header| => Field(r, header[j]))
  }

  function Rows(header: seq<string>, records: seq<Record>): (lines: seq<seq<string>>)
    ensures |lines| == |records|
    ensures forall i :: 0 <= i < |records| ==> lines[i] == Project(header, records[i])
  {
    seq(|records|, i requires 0 <= i < |records| => Project(header, records[i]))
  }

  /** The header line, when it is still due: before the first line of a non-empty header. */
  function HeaderLine(header: seq<string>, written: bool): seq<seq<string>>
  {
    if !written && |header| > 0 then [header] else []
  }

  /** The lines one non-empty Write hands to the csv writer. */
  function Batch(header: seq<string>, written: bool, records: seq<Record>): seq<seq<string>>
  {
    HeaderLine(header, written) + Rows(header, records)
  }

  /** How many leading lines the writer accepts; `accepts` answers a line with an error or None. */
  function Accepted(lines: seq<seq<string>>, accepts: seq<string> -> Option<string>): (k: nat)
    ensures k <= |lines|
    ensures k < |lines| ==> accepts(lines[k]).Some?
  {
    if |lines| == 0 || accepts(lines[0]).Some? then 0 else 1 + Accepted(lines[1..], accepts)
  }

  class Sink {
    var id: string
    var filePath: string
    var hasFile: bool
    var hasWriter: bool
    var header: seq<string>
    var written: bool
    var lines: seq<seq<string>>   // what the writer has accepted for the current file

    constructor()
      ensures id == "" && filePath == "" && !hasFile && !hasWriter && header == [] && !written && lines == []
    {
      id, filePath, hasFile, hasWriter, header, written, lines := "", "", false, false, [], false, [];
    }

    /** Open as written: the header names are appended to what an earlier run left, and
        `written` is never reset. `order` is the order the mapping is visited in; `create`
        is os.Create's error, if any. */
    method OpenAsWritten(config: map<string, string>, columnMapping: Mapping, order: seq<string>, create: Option<string>)
      returns (err: Option<string>)
      requires IsEnumeration(order, columnMapping.Keys)
      modifies this
      ensures "file_path" !in config ==>
        err == Some("csv sink: config is missing or has invalid 'file_name'") && header == old(header) && lines == old(lines)
      ensures "file_path" in config && create.Some? ==>
        err == Some("csv sink: failed to create/open file: " + create.value) && !hasFile && header == old(header)
        && hasWriter == old(hasWriter) && lines == old(lines)
      ensures "file_path" in config && create.None? ==>
        err.None? && hasFile && hasWriter && filePath == config["file_path"] && lines == []
        && header == old(header) + seq(|order|, i requires 0 <= i < |order| => columnMapping[order[i]])
      ensures written == old(written) && id == old(id)
    {
      if "file_path" !in config {
        return Some("csv sink: config is missing or has invalid 'file_name'");
      }
      filePath := config["file_path"];
      if create.Some? {
        hasFile := false;
        return Some("csv sink: failed to create/open file: " + create.value);
      }
      hasFile := true;
      hasWriter := true;
      lines := [];
      var names := header;
      var i := 0;
      while i < |order|
        invariant 0 <= i <= |order|
        invariant names == old(header) + seq(i, k requires 0 <= k < i => columnMapping[order[k]])
      {
        names := names + [columnMapping[order[i]]];
        i := i + 1;
      }
      header := names;
      return None;
    }

    /** Open as intended: the header is exactly the mapping's external names and no header
        line has been written to the new file yet. */
    method Open(config: map<string, string>, columnMapping: Mapping, order: seq<string>, create: Option<string>)
      returns (err: Option<string>)
      requires IsEnumeration(order, columnMapping.Keys)
      modifies this
      ensures "file_path" !in config ==>
        err == Some("csv sink: config is missing or has invalid 'file_name'") && header == old(header)
        && lines == old(lines) && written == old(written)
      ensures "file_path" in config && create.Some? ==>
        err == Some("csv sink: failed to create/open file: " + create.value) && !hasFile && header == old(header)
        && hasWriter == old(hasWriter) && lines == old(lines) && written == old(written)
      ensures "file_path" in config && create.None? ==>
        err.None? && hasFile && hasWriter && filePath == config["file_path"] && lines == [] && !written
        && header == seq(|order|, i requires 0 <= i < |order| => columnMapping[order[i]])
      ensures id == old(id)
    {
      if "file_path" !in config {
        return Some("csv sink: config is missing or has invalid 'file_name'");
      }
      filePath := config["file_path"];
      if create.Some? {
        hasFile := false;
        return Some("csv sink: failed to create/open file: " + create.value);
      }
      hasFile := true;
      hasWriter := true;
      lines := [];
      written := false;
      var names := [];
      var i := 0;
      while i < |order|
        invariant 0 <= i <= |order|
        invariant names == seq(i, k requires 0 <= k < i => columnMapping[order[k]])
      {
        names := names + [columnMapping[order[i]]];
        i := i + 1;
      }
      header := names;
      return None;
    }

    /** Write records the run ID, then hands the header line (when due) and one line per
        record to the writer, stopping at the first line it rejects, and flushes. */
    method Write(runId: string, records: seq<Record>, accepts: seq<string> -> Option<string>, flushErr: Option<string>)
      returns (err: Option<string>)
      modifies this
      ensures id == runId && header == old(header) && hasWriter == old(hasWriter) && hasFile == old(hasFile)
      ensures |records| == 0 ==> err.None? && lines == old(lines) && written == old(written)
      ensures |records| > 0 && !hasWriter ==>
        err == Some("csv sink: writer is not initialized") && lines == old(lines) && written == old(written)
      ensures |records| > 0 && hasWriter ==> (
        var b := Batch(header, old(written), records);
        var due := |HeaderLine(header, old(written))|;
        var k := Accepted(b, accepts);
        lines == old(lines) + b[..k] &&
        written == (old(written) || (due == 1 && k >= 1)) &&
        err == WriteError(b, k, due, accepts, flushErr))
    {
      id := runId;
      if |records| == 0 {
        return None;
      }
      if !hasWriter {
        return Some("csv sink: writer is not initialized");
      }
      var err';
      lines, written, err' := WriteBatch(lines, header, written, records, accepts, flushErr);
      return err';
    }

    /** Close flushes the writer and closes the file if one is open; `closeErr` is what the
        file system answers. */
    method Close(closeErr: Option<string>) returns (err: Option<string>)
      ensures err == (if hasFile then closeErr else None)
    {
      if hasFile {
        return closeErr;
      }
      return None;
    }
  }

  /** What the error of a non-empty Write says, given the batch, its accepted prefix and how
      many header lines were due. */
  function WriteError(b: seq<seq<string>>, k: nat, due: nat, accepts: seq<string> -> Option<string>, flushErr: Option<string>): Option<string>
    requires k < |b| ==> accepts(b[k]).Some?
  {
    if k < |b| && k < due then Some("csv sink: failed to write header: " + accepts(b[k]).value)
    else if k < |b| then Some("csv sink: failed to write row: " + accepts(b[k]).value)
    else if flushErr.Some? then Some("csv sink: flush error: " + flushErr.value)
    else None
  }

  /** The body of a non-empty Write with a writer, on the writer's lines and the header flag. */
  method WriteBatch(lines: seq<seq<string>>, header: seq<string>, written: bool, records: seq<Record>,
                    accepts: seq<string> -> Option<string>, flushErr: Option<string>)
    returns (lines': seq<seq<string>>, written': bool, err: Option<string>)
    ensures var b := Batch(header, written, records); var due := |HeaderLine(header, written)|;
      var k := Accepted(b, accepts);
      lines' == lines + b[..k] && written' == (written || (due == 1 && k >= 1))
      && err == WriteError(b, k, due, accepts, flushErr)
  {
    ghost var b := Batch(header, written, records);
    lines', written' := lines, written;
    if !written && |header| > 0 {
      var e := accepts(header);
      if e.Some? {
        HeaderRejected(header, written, records, accepts);
        return lines', written', Some("csv sink: failed to write header: " + e.value);
      }
      lines' := lines' + [header];
      written' := true;
    }
    BatchAccepted(header, written, records, accepts);
    ghost var rows := Rows(header, records);
    ghost var hl := HeaderLine(header, written);
    assert lines' == lines + hl;
    var failed;
    ghost var before := lines';
    lines', failed := WriteRows(lines', header, records, accepts);
    ghost var kr := Accepted(rows, accepts);
    assert lines' == (lines + hl) + rows[..kr];
    assert b[..|hl| + kr] == hl + rows[..kr];
    ConcatAssoc(lines, hl, rows[..kr]);
    if failed.Some? {
      return lines', written', Some("csv sink: failed to write row: " + failed.value);
    }
    if flushErr.Some? {
      return lines', written', Some("csv sink: flush error: " + flushErr.value);
    }
    return lines', written', None;
  }

  /** A rejected header line stops the batch before anything is accepted. */
  lemma HeaderRejected(header: seq<string>, written: bool, records: seq<Record>, accepts: seq<string> -> Option<string>)
    requires !written && |header| > 0 && accepts(header).Some?
    ensures var b := Batch(header, written, records);
      Accepted(b, accepts) == 0 && b[..0] == [] && |b| > 0 && b[0] == header
  {
    var b := Batch(header, written, records);
    assert b[0] == header;
  }

  /** The row loop of Write: each record's line goes to the writer until one is rejected. */
  method WriteRows(out: seq<seq<string>>, header: seq<string>, records: seq<Record>, accepts: seq<string> -> Option<string>)
    returns (result: seq<seq<string>>, failed: Option<string>)
    ensures var rows := Rows(header, records); var k := Accepted(rows, accepts);
      result == out + rows[..k] && failed == (if k < |rows| then accepts(rows[k]) else None)
  {
    ghost var rows := Rows(header, records);
    result := out;
    var i := 0;
    while i < |records|
      invariant 0 <= i <= |records|
      invariant forall k :: 0 <= k < i ==> accepts(rows[k]).None?
      invariant result == out + rows[..i]
    {
      var row := ProjectRow(header, records[i]);
      assert row == rows[i];
      var e := accepts(row);
      if e.Some? {
        AcceptedPrefix(rows, i, accepts);
        return result, e;
      }
      assert rows[..i + 1] == rows[..i] + [row];
      result := result + [row];
      i := i + 1;
    }
    AcceptedPrefix(rows, |records|, accepts);
    assert rows[..i] == rows;
    return result, None;
  }

  /** The field loop of Write: the line for one record. */
  method ProjectRow(header: seq<string>, r: Record) returns (row: seq<string>)
    ensures |row| == |header|
    ensures forall j :: 0 <= j < |header| ==> row[j] == Field(r, header[j])
  {
    row := [];
    var j := 0;
    while j < |header|
      invariant 0 <= j <= |header|
      invariant |row| == j
      invariant forall k :: 0 <= k < j ==> row[k] == Field(r, header[k])
    {
      var value := "";
      if header[j] in r {
        value := Format(r[header[j]]);
      }
      row := row + [value];
      j := j + 1;
    }
  }

  /** Once the due header line is accepted, the batch's accepted prefix is that line followed
      by the accepted prefix of the rows. */
  lemma {:induction false} BatchAccepted(header: seq<string>, written: bool, records: seq<Record>, accepts: seq<string> -> Option<string>)
    requires |HeaderLine(header, written)| == 0 || accepts(header).None?
    ensures var b := Batch(header, written, records); var rows := Rows(header, records);
      var due := |HeaderLine(header, written)|; var k := Accepted(rows, accepts);
      Accepted(b, accepts) == due + k && b[..due + k] == HeaderLine(header, written) + rows[..k]
      && (k < |rows| ==> b[due + k] == rows[k])
  {
    AcceptedAfter(HeaderLine(header, written), Rows(header, records), accepts);
  }

  /** Accepted lines in front of `rows` shift its accepted prefix by their number. */
  lemma {:induction false} AcceptedAfter(h: seq<seq<string>>, rows: seq<seq<string>>, accepts: seq<string> -> Option<string>)
    requires forall i :: 0 <= i < |h| ==> accepts(h[i]).None?
    ensures var b := h + rows; var k := Accepted(rows, accepts);
      Accepted(b, accepts) == |h| + k && b[..|h| + k] == h + rows[..k]
      && (k < |rows| ==> b[|h| + k] == rows[k])
  {
    var b := h + rows;
    assert b[|h|..] == rows;
    AcceptedSkip(b, |h|, accepts);
    var k := Accepted(rows, accepts);
    assert b[..|h| + k] == h + rows[..k];
  }

  /** Lines accepted one by one up to `n` count as the first `n` of the accepted prefix. */
  lemma {:induction false} AcceptedPrefix(lines: seq<seq<string>>, n: nat, accepts: seq<string> -> Option<string>)
    requires n <= |lines|
    requires forall k :: 0 <= k < n ==> accepts(lines[k]).None?
    requires n < |lines| ==> accepts(lines[n]).Some?
    ensures Accepted(lines, accepts) == n
    decreases n
  {
    if n > 0 {
      AcceptedPrefix(lines[1..], n - 1, accepts);
    }
  }

  /** Accepted lines at the front can be skipped. */
  lemma {:induction false} AcceptedSkip(lines: seq<seq<string>>, n: nat, accepts: seq<string> -> Option<string>)
    requires n <= |lines|
    requires forall k :: 0 <= k < n ==> accepts(lines[k]).None?
    ensures Accepted(lines, accepts) == n + Accepted(lines[n..], accepts)
    decreases n
  {
    if n > 0 {
      AcceptedSkip(lines[1..], n - 1, accepts);
      assert lines[1..][n - 1..] == lines[n..];
    }
  }

  /** The records of successive batches, in order. */
  function Flatten(batches: seq<seq<Record>>): seq<Record>
  {
    if |batches| == 0 then [] else batches[0] + Flatten(batches[1..])
  }

  /** Everything successive Writes hand to a writer that accepts every line: an empty batch
      hands nothing, a non-empty one its header line when due and its rows. */
  function Output(header: seq<string>, written: bool, batches: seq<seq<Record>>): seq<seq<string>>
    decreases |batches|
  {
    if |batches| == 0 then []
    else
      (if |batches[0]| == 0 then [] else Batch(header, written, batches[0]))
      + Output(header, written || (|batches[0]| > 0 && |header| > 0), batches[1..])
  }

  lemma RowsAppend(header: seq<string>, a: seq<Record>, b: seq<Record>)
    ensures Rows(header, a + b) == Rows(header, a) + Rows(header, b)
  {
  }

  /** Over any run of batches the header line appears once, first, and only when some record
      arrived and the header is not empty; the rows follow in arrival order. */
  lemma {:induction false} HeaderOnce(header: seq<string>, written: bool, batches: seq<seq<Record>>)
    ensures Output(header, written, batches)
      == HeaderLine(header, written || |Flatten(batches)| == 0) + Rows(header, Flatten(batches))
    decreases |batches|
  {
    if |batches| > 0 {
      var next := written || (|batches[0]| > 0 && |header| > 0);
      HeaderOnce(header, next, batches[1..]);
      RowsAppend(header, batches[0], Flatten(batches[1..]));
      if |batches[0]| > 0 {
        assert HeaderLine(header, next || |Flatten(batches[1..])| == 0) == [];
      }
    }
  }

  /** A writer that accepts every line accepts the whole batch. */
  lemma {:induction false} AllAccepted(lines: seq<seq<string>>, accepts: seq<string> -> Option<string>)
    requires forall line :: accepts(line).None?
    ensures Accepted(lines, accepts) == |lines|
    decreases |lines|
  {
    if |lines| > 0 {
      AllAccepted(lines[1..], accepts);
    }
  }

  /** A sink instance serves every run of its task. With the Open as written, a second run
      over the mapping {"a": "a"} has the header ["a", "a"] and its file gets no header line,
      only the line ["1", "1"] for the record {"a": "1"}. */
  method SecondRunAsWritten() returns (second: seq<seq<string>>)
    ensures second == [["1", "1"]]
  {
    var config := map["file_path" := "out.csv"];
    var mapping := map["a" := "a"];
    var batch := [map["a" := Str("1")]];
    var accepts := (line: seq<string>) => None;
    var sink := new Sink();
    var e := sink.OpenAsWritten(config, mapping, ["a"], None);
    assert sink.header == ["a"];
    AllAccepted(Batch(["a"], false, batch), accepts);
    e := sink.Write("run-1", batch, accepts, None);
    assert sink.written;
    e := sink.OpenAsWritten(config, mapping, ["a"], None);
    assert sink.header == ["a", "a"];
    AllAccepted(Batch(["a", "a"], true, batch), accepts);
    e := sink.Write("run-2", batch, accepts, None);
    assert Field(batch[0], "a") == "1";
    assert Project(["a", "a"], batch[0]) == ["1", "1"];
    assert Batch(["a", "a"], true, batch) == [["1", "1"]];
    second := sink.lines;
  }

  /** With the intended Open, the second run's file starts with the header line ["a"]. */
  method SecondRunIntended() returns (second: seq<seq<string>>)
    ensures second == [["a"], ["1"]]
  {
    var config := map["file_path" := "out.csv"];
    var mapping := map["a" := "a"];
    var batch := [map["a" := Str("1")]];
    var accepts := (line: seq<string>) => None;
    var sink := new Sink();
    var e := sink.Open(config, mapping, ["a"], None);
    AllAccepted(Batch(["a"], false, batch), accepts);
    e := sink.Write("run-1", batch, accepts, None);
    e := sink.Open(config, mapping, ["a"], None);
    assert sink.header == ["a"];
    AllAccepted(Batch(["a"], false, batch), accepts);
    e := sink.Write("run-2", batch, accepts, None);
    assert Field(batch[0], "a") == "1";
    assert Project(["a"], batch[0]) == ["1"];
    assert Batch(["a"], false, batch) == [["a"], ["1"]];
    second := sink.lines;
  }
}
