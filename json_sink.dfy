// The JSON sink: every non-empty batch is written to the file as its own JSON array,
// one encoded record per element.
module JsonSink {
  import opened Wrappers
  import opened Text
  import opened Values

  /** What the writes of one batch leave between "[\n" and the closing "\n]": the encodings
      separated by ",\n", cut short at the first record the encoder rejects. */
  datatype BatchText = BatchText(text: string, failure: Option<string>)

  /** The batch body for `records`; `encode` is json.Encoder.Encode, whose output ends in "\n". */
  function Body(records: seq<Record>, encode: Record -> Result<string>): (b: BatchText)
    decreases |records|
  {
    if |records| == 0 then BatchText("", None)
    else match encode(records[0])
      case Err(m) => BatchText("", Some(m))
      case Ok(e) =>
        if |records| == 1 then BatchText(e, None)
        else var rest := Body(records[1..], encode); BatchText(e + ",\n" + rest.text, rest.failure)
  }

  /** A whole batch as one JSON array. */
  function Framed(encodings: seq<string>): string
  {
    "[\n" + Join(encodings, ",\n") + "\n]"
  }

  function Encodings(records: seq<Record>, encode: Record -> Result<string>): (encs: seq<string>)
    requires forall i :: 0 <= i < |records| ==> encode(records[i]).Ok?
    ensures |encs| == |records|
  {
    seq(|records|, i requires 0 <= i < |records| => encode(records[i]).value)
  }

  /** When every record encodes, the body is the encodings joined by ",\n", so n records get
      n - 1 separators and the batch is the array Framed(encodings). */
  lemma {:induction false} BodyJoin(records: seq<Record>, encode: Record -> Result<string>)
    requires forall i :: 0 <= i < |records| ==> encode(records[i]).Ok?
    ensures Body(records, encode) == BatchText(Join(Encodings(records, encode), ",\n"), None)
    decreases |records|
  {
    if |records| > 1 {
      BodyJoin(records[1..], encode);
      assert Encodings(records[1..], encode) == Encodings(records, encode)[1..];
    }
  }

  /** A rejected record ends the body with its error. */
  lemma {:induction false} BodyFailure(records: seq<Record>, encode: Record -> Result<string>, k: nat)
    requires k < |records| && encode(records[k]).Err?
    requires forall i :: 0 <= i < k ==> encode(records[i]).Ok?
    ensures Body(records, encode).failure == Some(encode(records[k]).msg)
    decreases k
  {
    if k > 0 {
      BodyFailure(records[1..], encode, k - 1);
    }
  }

  class Sink {
    var id: string
    var filePath: string
    var hasFile: bool
    var hasEncoder: bool
    var out: string   // what the current file has received since it was created

    constructor()
      ensures id == "" && filePath == "" && !hasFile && !hasEncoder && out == ""
    {
      id, filePath, hasFile, hasEncoder, out := "", "", false, false, "";
    }

    /** Open creates the file named by file_path; the column mapping plays no part.
        `create` is os.Create's error, if any. */
    method Open(config: map<string, string>, create: Option<string>) returns (err: Option<string>)
      modifies this
      ensures "file_path" !in config ==>
        err == Some("json sink: config is missing or has invalid 'file_name'") && out == old(out) && hasFile == old(hasFile)
      ensures "file_path" in config && create.Some? ==>
        err == Some("json sink: failed to create/open file: " + create.value) && !hasFile
        && hasEncoder == old(hasEncoder) && out == old(out)
      ensures "file_path" in config && create.None? ==>
        err.None? && hasFile && hasEncoder && filePath == config["file_path"] && out == ""
      ensures id == old(id)
    {
      if "file_path" !in config {
        return Some("json sink: config is missing or has invalid 'file_name'");
      }
      filePath := config["file_path"];
      if create.Some? {
        hasFile := false;
        return Some("json sink: failed to create/open file: " + create.value);
      }
      hasFile := true;
      hasEncoder := true;
      out := "";
      return None;
    }

    /** Write records the run ID and, for a non-empty batch, appends "[\n", the records'
        encodings separated by ",\n", and "\n]"; a rejected record stops it there. */
    method Write(runId: string, records: seq<Record>, encode: Record -> Result<string>) returns (err: Option<string>)
      modifies this
      ensures id == runId && hasEncoder == old(hasEncoder) && hasFile == old(hasFile)
      ensures |records| == 0 ==> err.None? && out == old(out)
      ensures |records| > 0 && !hasEncoder ==> err == Some("json sink: encoder is not initialized") && out == old(out)
      ensures |records| > 0 && hasEncoder ==> (
        var b := Body(records, encode);
        match b.failure
        case None => err.None? && out == old(out) + "[\n" + b.text + "\n]"
        case Some(m) => err == Some("json sink: failed to encode/write record: " + m) && out == old(out) + "[\n" + b.text)
    {
      id := runId;
      if |records| == 0 {
        return None;
      }
      if !hasEncoder {
        return Some("json sink: encoder is not initialized");
      }
      var text := out + "[\n";
      var i := 0;
      while i < |records|
        invariant 0 <= i <= |records|
        invariant text + Body(records[i..], encode).text == old(out) + "[\n" + Body(records, encode).text
        invariant Body(records[i..], encode).failure == Body(records, encode).failure
      {
        var enc := encode(records[i]);
        if enc.Err? {
          out := text;
          return Some("json sink: failed to encode/write record: " + enc.msg);
        }
        assert records[i..][1..] == records[i + 1..];
        text := text + enc.value;
        if i < |records| - 1 {
          text := text + ",\n";
        }
        i := i + 1;
      }
      out := text + "\n]";
      return None;
    }

    /** Close closes the file if one is open; `closeErr` is what the file system answers. */
    method Close(closeErr: Option<string>) returns (err: Option<string>)
      ensures err == (if hasFile then closeErr else None)
    {
      if hasFile {
        return closeErr;
      }
      return None;
    }
  }

  /** A text of its own is one line of a split when no newline is in it. */
  lemma SplitCons(a: string, b: string)
    requires '\n' !in a
    ensures Split(a + "\n" + b, '\n') == [a] + Split(b, '\n')
  {
    var s := a + "\n" + b;
    var r := IndexOf(s, '\n');
    assert s[|a|] == '\n';
    assert s[..|a|] == a && s[|a| + 1..] == b;
  }

  /** The lines of an array's elements: each element's text, with a "," line between two. */
  function ElementLines(bodies: seq<string>): seq<string>
    decreases |bodies|
  {
    if |bodies| <= 1 then bodies else [bodies[0], ","] + ElementLines(bodies[1..])
  }

  /** The encodings: each body followed by the encoder's newline. */
  function WithNewlines(bodies: seq<string>): (encs: seq<string>)
    ensures |encs| == |bodies|
  {
    seq(|bodies|, i requires 0 <= i < |bodies| => bodies[i] + "\n")
  }

  /** The lines after "[": the element lines, then an empty line and "]". */
  lemma {:induction false} TailLines(bodies: seq<string>)
    requires |bodies| > 0
    requires forall i :: 0 <= i < |bodies| ==> '\n' !in bodies[i]
    ensures Split(Join(WithNewlines(bodies), ",\n") + "\n]", '\n') == ElementLines(bodies) + ["", "]"]
    decreases |bodies|
  {
    ClosingLines();
    if |bodies| == 1 {
      var s := Join(WithNewlines(bodies), ",\n") + "\n]";
      assert s == bodies[0] + "\n" + "\n]";
      SplitCons(bodies[0], "\n]");
    } else {
      TailLines(bodies[1..]);
      TailCons(bodies);
    }
  }

  /** The closing "\n]" splits into an empty line and "]". */
  lemma ClosingLines()
    ensures Split("\n]", '\n') == ["", "]"]
  {
    assert Split("]", '\n') == ["]"];
    SplitCons("", "]");
    assert "" + "\n" + "]" == "\n]";
  }

  lemma WithNewlinesTail(bodies: seq<string>)
    requires |bodies| > 0
    ensures WithNewlines(bodies[1..]) == WithNewlines(bodies)[1..]
  {
    var encs := WithNewlines(bodies);
    var tailEncs := WithNewlines(bodies[1..]);
    forall i | 0 <= i < |tailEncs|
      ensures tailEncs[i] == encs[1..][i]
    {
      assert bodies[1..][i] == bodies[i + 1];
    }
  }

  /** One more element in front of the tail lines: its body, then a "," line. */
  lemma {:induction false} TailCons(bodies: seq<string>)
    requires |bodies| > 1
    requires forall i :: 0 <= i < |bodies| ==> '\n' !in bodies[i]
    requires Split(Join(WithNewlines(bodies[1..]), ",\n") + "\n]", '\n') == ElementLines(bodies[1..]) + ["", "]"]
    ensures Split(Join(WithNewlines(bodies), ",\n") + "\n]", '\n') == ElementLines(bodies) + ["", "]"]
  {
    var t := Join(WithNewlines(bodies[1..]), ",\n") + "\n]";
    calc {
      Split(Join(WithNewlines(bodies), ",\n") + "\n]", '\n');
    == { TailText(bodies); }
      Split(bodies[0] + "\n" + ("," + "\n" + t), '\n');
    == { SplitCons(bodies[0], "," + "\n" + t); }
      [bodies[0]] + Split("," + "\n" + t, '\n');
    == { SplitCons(",", t); }
      [bodies[0]] + ([","] + (ElementLines(bodies[1..]) + ["", "]"]));
    == { ConcatAssoc([bodies[0]], [","], ElementLines(bodies[1..]) + ["", "]"]);
         assert [bodies[0]] + [","] == [bodies[0], ","]; }
      [bodies[0], ","] + (ElementLines(bodies[1..]) + ["", "]"]);
    == { ConcatAssoc([bodies[0], ","], ElementLines(bodies[1..]), ["", "]"]); }
      ElementLines(bodies) + ["", "]"];
    }
  }

  /** The text of a batch of two or more: the first body, a newline, then "," and the rest. */
  lemma {:induction false} TailText(bodies: seq<string>)
    requires |bodies| > 1
    ensures Join(WithNewlines(bodies), ",\n") + "\n]"
         == bodies[0] + "\n" + ("," + "\n" + (Join(WithNewlines(bodies[1..]), ",\n") + "\n]"))
  {
    var encs := WithNewlines(bodies);
    WithNewlinesTail(bodies);
    var rest := Join(encs[1..], ",\n");
    assert Join(encs, ",\n") == encs[0] + ",\n" + rest;
    assert encs[0] == bodies[0] + "\n";
    Regroup(bodies[0], rest, "\n]");
  }

  lemma Regroup(b: string, rest: string, last: string)
    ensures (b + "\n") + ",\n" + rest + last == b + "\n" + ("," + "\n" + (rest + last))
  {
    assert ",\n" == "," + "\n";
  }

  /** Reading a batch back line by line: "[", the records' lines with a "," line between
      two, an empty line and "]", provided no encoding holds a newline before its own. */
  lemma FramedLines(bodies: seq<string>)
    requires |bodies| > 0
    requires forall i :: 0 <= i < |bodies| ==> '\n' !in bodies[i]
    ensures Split(Framed(WithNewlines(bodies)), '\n') == ["["] + ElementLines(bodies) + ["", "]"]
  {
    TailLines(bodies);
    var joined := Join(WithNewlines(bodies), ",\n");
    var tail := joined + "\n]";
    var framed := Framed(WithNewlines(bodies));
    FrameShape(joined);
    assert framed == "[" + "\n" + tail;
    SplitCons("[", tail);
    assert Split(framed, '\n') == ["["] + (ElementLines(bodies) + ["", "]"]);
    ConcatAssoc(["["], ElementLines(bodies), ["", "]"]);
  }

  lemma FrameShape(joined: string)
    ensures "[\n" + joined + "\n]" == "[" + "\n" + (joined + "\n]")
  {
    assert "[\n" == "[" + "\n";
  }

  /** The element lines hold the bodies in order at the even positions. */
  lemma {:induction false} ElementLinesOrder(bodies: seq<string>)
    requires |bodies| > 0
    ensures |ElementLines(bodies)| == 2 * |bodies| - 1
    ensures forall i :: 0 <= i < |bodies| ==> ElementLines(bodies)[2 * i] == bodies[i]
    ensures forall i :: 0 <= i < |bodies| - 1 ==> ElementLines(bodies)[2 * i + 1] == ","
    decreases |bodies|
  {
    if |bodies| > 1 {
      ElementLinesOrder(bodies[1..]);
      var rest := ElementLines(bodies[1..]);
      forall i | 0 <= i < |bodies|
        ensures ElementLines(bodies)[2 * i] == bodies[i]
      {
        if i > 0 {
          assert ElementLines(bodies)[2 * i] == rest[2 * (i - 1)];
        }
      }
      forall i | 0 <= i < |bodies| - 1
        ensures ElementLines(bodies)[2 * i + 1] == ","
      {
        if i > 0 {
          assert ElementLines(bodies)[2 * i + 1] == rest[2 * (i - 1) + 1];
        }
      }
    }
  }
}
