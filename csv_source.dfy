// The CSV source: the first row of the file is the header, every later row becomes a
// record mapping header names to the row's fields.
module CsvSource {
  import opened Wrappers
  import opened Values
  import Pipeline

  const Name: string := "csv"

  /** One record as encoding/csv's parser finds it in the file: its fields and the file
      line it starts on, or a parse error with its text. Once the records run out the
      reader reports io.EOF. */
  datatype CsvStep = Fields(fields: seq<string>, fileLine: nat) | Broken(msg: string)

  /** The error every Read of encoding/csv answers when the delimiter is unusable. */
  const InvalidDelim := "csv: invalid field or comment delimiter"

  /** encoding/csv's check on Comma with Comment left at 0: not 0 (which equals Comment),
      not a quote, a line break or the Unicode replacement character. */
  predicate ValidDelim(c: char)
  {
    c != 0 as char && c != '"' && c != '\r' && c != '\n' && c != '\U{FFFD}'
  }

  /** The ParseError text encoding/csv gives a record whose width differs from the first
      record's (FieldsPerRecord is left at 0, so the header fixes the width). */
  function FieldCountError(fileLine: nat): string
  {
    "record on line " + IntToDecimal(fileLine) + ": wrong number of fields"
  }

  /** The record a row makes: header[i] -> row[i], a later column overwriting an
      earlier one of the same name. */
  function Zip(header: seq<string>, row: seq<string>): Record
    requires |header| == |row|
    decreases |row|
  {
    if |row| == 0 then map[]
    else Zip(header[..|row| - 1], row[..|row| - 1])[header[|row| - 1] := Str(row[|row| - 1])]
  }

  /** The record has exactly the header's names; a name holds the field of its last
      column, so a column with no later namesake keeps its own field. */
  lemma ZipContents(header: seq<string>, row: seq<string>)
    requires |header| == |row|
    ensures forall h :: h in Zip(header, row) <==> h in header
    ensures forall j :: 0 <= j < |row| && (forall k :: j < k < |row| ==> header[k] != header[j]) ==>
      Zip(header, row)[header[j]] == Str(row[j])
  {
    ZipKeys(header, row);
    ZipValues(header, row);
  }

  lemma {:induction false} ZipKeys(header: seq<string>, row: seq<string>)
    requires |header| == |row|
    ensures forall h :: h in Zip(header, row) <==> h in header
    decreases |row|
  {
    if |row| > 0 {
      var n := |row| - 1;
      ZipKeys(header[..n], row[..n]);
      forall h
        ensures h in Zip(header, row) <==> h in header
      {
        assert h in header <==> h in header[..n] || h == header[n] by {
          assert header == header[..n] + [header[n]];
        }
      }
    }
  }

  lemma {:induction false} ZipValues(header: seq<string>, row: seq<string>)
    requires |header| == |row|
    ensures forall j :: 0 <= j < |row| && (forall k :: j < k < |row| ==> header[k] != header[j]) ==>
      header[j] in Zip(header, row) && Zip(header, row)[header[j]] == Str(row[j])
    decreases |row|
  {
    if |row| > 0 {
      var n := |row| - 1;
      ZipValues(header[..n], row[..n]);
      forall j | 0 <= j < |row| && (forall k :: j < k < |row| ==> header[k] != header[j])
        ensures header[j] in Zip(header, row) && Zip(header, row)[header[j]] == Str(row[j])
      {
        if j < n {
          assert header[..n][j] == header[j] && row[..n][j] == row[j];
          assert forall k :: j < k < n ==> header[..n][k] != header[..n][j];
          assert header[n] != header[j];
        }
      }
    }
  }

  /** Go's error text for a missing file. */
  function OpenError(path: string): string
  {
    "open " + path + ": no such file or directory"
  }

  /** The message Read gives for a reader error, naming the line after the last one read. */
  function ReadError(line: int, cause: string): string
  {
    "csv source: error reading data at line " + IntToDecimal(line + 1) + ": " + cause
  }

  class Source {
    var filePath: string
    var delimiter: char
    var header: seq<string>
    var line: int
    var hasFile: bool            // a file handle is held
    var pending: seq<CsvStep>   // what the reader has yet to answer

    constructor()
      ensures filePath == "" && delimiter == 0 as char && header == [] && line == 0 && !hasFile && pending == []
    {
      filePath, delimiter, header, line, hasFile, pending := "", 0 as char, [], 0, false, [];
    }

    /** Open takes file_path and an optional delimiter, opens the file and reads the header.
        `disk` maps paths to file contents; `parse` is the csv reader over a content and a delimiter. */
    method Open(config: map<string, string>, disk: map<string, string>, parse: (string, char) -> seq<CsvStep>)
      returns (err: Option<string>)
      modifies this
      ensures "file_path" !in config ==>
        err == Some("csv source: config is missing required key 'file_path'") && pending == old(pending) && header == old(header)
      ensures "file_path" in config ==> filePath == config["file_path"]
      ensures "file_path" in config ==>
        delimiter == (if "delimiter" in config && |config["delimiter"]| > 0 then config["delimiter"][0] else old(delimiter))
      ensures "file_path" in config && config["file_path"] !in disk ==>
        !hasFile && err == Some("csv source: failed to open file " + config["file_path"] + ": " + OpenError(config["file_path"]))
      ensures "file_path" in config && config["file_path"] in disk && !ValidDelim(delimiter) ==>
        hasFile && err == Some("csv source: failed to read header: " + InvalidDelim) && header == [] && line == 0 && pending == []
      ensures "file_path" in config && config["file_path"] in disk && ValidDelim(delimiter) ==> (hasFile &&
        var steps := parse(disk[config["file_path"]], delimiter);
        if |steps| == 0 then
          err == Some("csv source: file is empty or contains only a header") && header == [] && line == 0 && pending == []
        else if steps[0].Broken? then
          err == Some("csv source: failed to read header: " + steps[0].msg) && header == [] && line == 0 && pending == steps[1..]
        else
          err.None? && header == steps[0].fields && line == 1 && pending == steps[1..])
    {
      if "file_path" !in config {
        return Some("csv source: config is missing required key 'file_path'");
      }
      filePath := config["file_path"];
      if "delimiter" in config && |config["delimiter"]| > 0 {
        delimiter := config["delimiter"][0];
      }
      if filePath !in disk {
        hasFile := false;
        return Some("csv source: failed to open file " + filePath + ": " + OpenError(filePath));
      }
      hasFile := true;
      line := 0;
      if !ValidDelim(delimiter) {
        header, pending := [], [];
        return Some("csv source: failed to read header: " + InvalidDelim);
      }
      pending := parse(disk[filePath], delimiter);
      if |pending| == 0 {
        header := [];
        return Some("csv source: file is empty or contains only a header");
      }
      var first := pending[0];
      pending := pending[1..];
      if first.Broken? {
        header := [];
        return Some("csv source: failed to read header: " + first.msg);
      }
      header := first.fields;
      line := line + 1;
      return None;
    }

    /** Read answers the next row as a record; io.EOF passes through as the end of data.
        encoding/csv itself refuses a row whose width differs from the header's, so that
        row comes back as a read error and the width check after it never fails. */
    method Read() returns (res: Pipeline.ReadResult)
      requires hasFile
      modifies this
      ensures !ValidDelim(delimiter) ==>
        res == Pipeline.ReadFailure(ReadError(old(line), InvalidDelim)) && pending == old(pending) && line == old(line)
      ensures ValidDelim(delimiter) && old(pending) == [] ==> res == Pipeline.EndOfData && pending == [] && line == old(line)
      ensures ValidDelim(delimiter) && old(pending) != [] ==> pending == old(pending)[1..]
      ensures ValidDelim(delimiter) && old(pending) != [] && old(pending)[0].Broken? ==>
        line == old(line) && res == Pipeline.ReadFailure(ReadError(old(line), old(pending)[0].msg))
      ensures ValidDelim(delimiter) && old(pending) != [] && old(pending)[0].Fields? ==> (
        var row := old(pending)[0].fields;
        if |row| != |header| then
          line == old(line) && res == Pipeline.ReadFailure(ReadError(old(line), FieldCountError(old(pending)[0].fileLine)))
        else line == old(line) + 1 && res == Pipeline.Row(Zip(header, row)))
      ensures header == old(header) && hasFile && delimiter == old(delimiter)
    {
      if !ValidDelim(delimiter) {
        return Pipeline.ReadFailure(ReadError(line, InvalidDelim));
      }
      if |pending| == 0 {
        return Pipeline.EndOfData;
      }
      var step := pending[0];
      pending := pending[1..];
      if step.Broken? {
        return Pipeline.ReadFailure(ReadError(line, step.msg));
      }
      var row := step.fields;
      if |row| != |header| {
        return Pipeline.ReadFailure(ReadError(line, FieldCountError(step.fileLine)));
      }
      line := line + 1;
      var r: Record := map[];
      var i := 0;
      while i < |row|
        invariant 0 <= i <= |row|
        invariant r == Zip(header[..i], row[..i])
      {
        assert header[..i + 1][..i] == header[..i] && row[..i + 1][..i] == row[..i];
        r := r[header[i] := Str(row[i])];
        i := i + 1;
      }
      assert header[..i] == header && row[..i] == row;
      return Pipeline.Row(r);
    }

    /** Column is the identity mapping over the header names. */
    method Column() returns (columns: Mapping)
      ensures forall k :: k in columns <==> k in header
      ensures forall k :: k in columns ==> columns[k] == k
    {
      columns := IdentityColumns(header);
    }

    /** Close closes the file if one was opened; `closeErr` is what the file system answers. */
    method Close(closeErr: Option<string>) returns (err: Option<string>)
      ensures err == (if hasFile then closeErr else None)
    {
      if hasFile {
        return closeErr;
      }
      return None;
    }
  }
}
