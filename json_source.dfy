// The JSON source: streams the objects of a top-level JSON array; the column set is
// the union of the keys of a sample of the first objects.
module JsonSource {
  import opened Wrappers
  import opened Values
  import Pipeline

  const Name: string := "json"

  /** The first token of the file. */
  datatype Opening = ArrayStart | OtherToken(text: string) | TokenError(msg: string)

  /** One array element as json.Decoder.Decode answers it: an object, io.EOF, or another error. */
  datatype Element = Object(r: Record) | AtEof | Malformed(msg: string)

  /** The token met once Decoder.More reports no further element. */
  datatype Ending = ArrayEnd | EndToken(text: string) | EndError(msg: string)

  /** A JSON file as the decoder sees it. */
  datatype Document = Document(opening: Opening, elements: seq<Element>, ending: Ending)

  const DefaultSampleRows: int := 100

  /** keys_sample_rows: a non-negative integer overrides the default of 100; anything else is ignored. */
  function SampleLimit(config: map<string, string>): (limit: int)
    ensures limit >= 0
    ensures "keys_sample_rows" !in config ==> limit == DefaultSampleRows
    ensures ("keys_sample_rows" in config && ParseInt64(config["keys_sample_rows"]).Some?
             && ParseInt64(config["keys_sample_rows"]).value >= 0) ==> limit == ParseInt64(config["keys_sample_rows"]).value
  {
    if "keys_sample_rows" in config then
      match ParseInt64(config["keys_sample_rows"])
      case Some(n) => if n >= 0 then n else DefaultSampleRows
      case None => DefaultSampleRows
    else DefaultSampleRows
  }

  /** The sampling loop from element j on, with the keys gathered so far: it stops at the
      end of the array, at io.EOF, or once `limit` objects (limit > 0) have been decoded. */
  function Sample(els: seq<Element>, limit: int, j: nat, acc: set<string>): Result<set<string>>
    requires j <= |els|
    decreases |els| - j
  {
    if j == |els| then Ok(acc)
    else match els[j]
      case AtEof => Ok(acc)
      case Malformed(m) => Err("json source: failed to decode json object: " + m)
      case Object(r) =>
        if j + 1 >= limit && limit > 0 then Ok(acc + r.Keys)
        else Sample(els, limit, j + 1, acc + r.Keys)
  }

  /** The keys of a run of objects. */
  function Union(els: seq<Element>): set<string>
    requires forall i :: 0 <= i < |els| ==> els[i].Object?
  {
    if |els| == 0 then {} else Union(els[..|els| - 1]) + els[|els| - 1].r.Keys
  }

  /** How many objects the sample covers: all of them for limit 0, at most `limit` otherwise. */
  function Sampled(count: nat, limit: int): nat
  {
    if limit <= 0 || count <= limit then count else limit
  }

  lemma {:induction false} SampleFrom(els: seq<Element>, limit: int, j: nat)
    requires limit >= 0 && j < Sampled(|els|, limit)
    requires forall i :: 0 <= i < Sampled(|els|, limit) ==> els[i].Object?
    ensures Sample(els, limit, j, Union(els[..j])) == Ok(Union(els[..Sampled(|els|, limit)]))
    decreases |els| - j
  {
    var n := Sampled(|els|, limit);
    assert els[..j + 1][..j] == els[..j];
    assert Union(els[..j + 1]) == Union(els[..j]) + els[j].r.Keys;
    if j + 1 >= limit && limit > 0 {
      assert n == j + 1;
    } else if j + 1 == |els| {
      assert els[..j + 1] == els[..n];
    } else {
      SampleFrom(els, limit, j + 1);
    }
  }

  /** When the sampled objects all decode, the column set is exactly the union of their keys. */
  lemma SampleIsUnion(els: seq<Element>, limit: int)
    requires limit >= 0
    requires forall i :: 0 <= i < Sampled(|els|, limit) ==> els[i].Object?
    ensures Sample(els, limit, 0, {}) == Ok(Union(els[..Sampled(|els|, limit)]))
  {
    assert els[..0] == [];
    if Sampled(|els|, limit) > 0 {
      SampleFrom(els, limit, 0);
    }
  }

  /** Every answer Read gives for the elements from here on: one record per object, then the
      answer that ends the stream. */
  function Answers(els: seq<Element>, ending: Ending): (a: seq<Pipeline.ReadResult>)
    ensures 1 <= |a| <= |els| + 1
    ensures forall i :: 0 <= i < |a| - 1 ==> a[i].Row? && els[i].Object? && a[i].r == els[i].r
    ensures !a[|a| - 1].Row?
    ensures a[|a| - 1] == Pipeline.EndOfData <==> (forall i :: 0 <= i < |els| ==> els[i].Object?) && ending == ArrayEnd
  {
    if |els| == 0 then
      [match ending
       case ArrayEnd => Pipeline.EndOfData
       case EndToken(t) => Pipeline.ReadFailure("json source: expected end of json array ']', but got '" + t + "'")
       case EndError(m) => Pipeline.ReadFailure("json source: error reading closing bracket of json array: " + m)]
    else match els[0]
      case Object(r) => [Pipeline.Row(r)] + Answers(els[1..], ending)
      case AtEof => [Pipeline.ReadFailure("json source: unexpected end of file, json array not closed with ']'")]
      case Malformed(m) => [Pipeline.ReadFailure("json source: failed to decode json object: " + m)]
  }

  /** The sampling loop of Open: the keys of the first objects, up to `limit` of them. */
  method SampleKeys(els: seq<Element>, limit: int) returns (keysSet: set<string>, err: Option<string>)
    ensures match Sample(els, limit, 0, {})
            case Err(m) => err == Some(m)
            case Ok(ks) => err.None? && keysSet == ks
  {
    keysSet, err := {}, None;
    var sampleRows := 0;
    var j := 0;
    while j < |els|
      invariant 0 <= j <= |els| && sampleRows == j
      invariant Sample(els, limit, j, keysSet) == Sample(els, limit, 0, {})
      decreases |els| - j
    {
      sampleRows := sampleRows + 1;
      ghost var acc := keysSet;
      match els[j] {
        case AtEof =>
          return;
        case Malformed(m) =>
          return keysSet, Some("json source: failed to decode json object: " + m);
        case Object(r) =>
          keysSet := AddKeys(keysSet, r);
      }
      j := j + 1;
      if sampleRows >= limit && limit > 0 {
        return;
      }
    }
  }

  /** The loop adding one object's keys to the sampled set. */
  method AddKeys(acc: set<string>, r: Record) returns (keysSet: set<string>)
    ensures keysSet == acc + r.Keys
  {
    keysSet := acc;
    var pendingKeys := r.Keys;
    while pendingKeys != {}
      invariant pendingKeys <= r.Keys
      invariant keysSet == acc + (r.Keys - pendingKeys)
      decreases pendingKeys
    {
      var key :| key in pendingKeys;
      keysSet := keysSet + {key};
      pendingKeys := pendingKeys - {key};
    }
  }

  /** The loop turning the sampled set into the source's key list, in Go's map order. */
  method ListKeys(keysSet: set<string>) returns (list: seq<string>)
    ensures IsEnumeration(list, keysSet)
  {
    list := [];
    var rest := keysSet;
    while rest != {}
      invariant rest <= keysSet
      invariant IsEnumeration(list, keysSet - rest)
      decreases rest
    {
      var key :| key in rest;
      list := list + [key];
      rest := rest - {key};
    }
    assert keysSet - rest == keysSet;
  }

  class Source {
    var filePath: string
    var keys: seq<string>
    var hasFile: bool
    var doc: Document
    var pos: nat          // elements the decoder has consumed since the rewind

    constructor()
      ensures filePath == "" && keys == [] && !hasFile && pos == 0
    {
      filePath, keys, hasFile, pos := "", [], false, 0;
      doc := Document(ArrayStart, [], ArrayEnd);
    }

    /** Open checks the opening '[', samples the keys of the first objects, then rewinds to
        the first element. `disk` maps paths to documents. */
    method Open(config: map<string, string>, disk: map<string, Document>) returns (err: Option<string>)
      modifies this
      ensures "file_path" !in config ==> err == Some("json source: config is missing required key 'file_path'")
      ensures "file_path" in config && config["file_path"] !in disk ==>
        !hasFile && err == Some("json source: failed to open file " + config["file_path"] + ": open " + config["file_path"] + ": no such file or directory")
      ensures "file_path" in config && config["file_path"] in disk ==> (
        var d := disk[config["file_path"]];
        hasFile && doc == d &&
        match d.opening
        case TokenError(m) => err == Some("json source: failed to read opening bracket of json array: " + m)
        case OtherToken(t) => err == Some("json source: expected file to start with a json array '[', but got '" + t + "'")
        case ArrayStart =>
          match Sample(d.elements, SampleLimit(config), 0, {})
          case Err(m) => err == Some(m)
          case Ok(ks) => err.None? && IsEnumeration(keys, ks) && pos == 0)
    {
      if "file_path" !in config {
        return Some("json source: config is missing required key 'file_path'");
      }
      filePath := config["file_path"];
      var keysSampleRows := SampleLimit(config);
      if filePath !in disk {
        hasFile := false;
        return Some("json source: failed to open file " + filePath + ": open " + filePath + ": no such file or directory");
      }
      hasFile := true;
      doc := disk[filePath];
      match doc.opening {
        case TokenError(m) =>
          return Some("json source: failed to read opening bracket of json array: " + m);
        case OtherToken(t) =>
          return Some("json source: expected file to start with a json array '[', but got '" + t + "'");
        case ArrayStart =>
      }
      var keysSet;
      keysSet, err := SampleKeys(doc.elements, keysSampleRows);
      if err.Some? {
        return;
      }
      var list := ListKeys(keysSet);
      keys := list;
      pos := 0;
      return None;
    }

    /** Read answers the next element: a record, or the answer that ends the stream. */
    method Read() returns (res: Pipeline.ReadResult)
      requires hasFile && pos <= |doc.elements|
      modifies this
      ensures doc == old(doc) && hasFile && keys == old(keys) && pos <= |doc.elements|
      ensures res == Answers(doc.elements[old(pos)..], doc.ending)[0]
      ensures pos == if res.Row? then old(pos) + 1 else old(pos)
    {
      if pos == |doc.elements| {
        match doc.ending {
          case ArrayEnd => return Pipeline.EndOfData;
          case EndToken(t) => return Pipeline.ReadFailure("json source: expected end of json array ']', but got '" + t + "'");
          case EndError(m) => return Pipeline.ReadFailure("json source: error reading closing bracket of json array: " + m);
        }
      }
      match doc.elements[pos] {
        case Object(r) =>
          pos := pos + 1;
          return Pipeline.Row(r);
        case AtEof =>
          return Pipeline.ReadFailure("json source: unexpected end of file, json array not closed with ']'");
        case Malformed(m) =>
          return Pipeline.ReadFailure("json source: failed to decode json object: " + m);
      }
    }

    /** Column is the identity mapping over the sampled keys. */
    method Column() returns (columns: Mapping)
      ensures forall k :: k in columns <==> k in keys
      ensures forall k :: k in columns ==> columns[k] == k
    {
      columns := IdentityColumns(keys);
    }

    /** Close closes the file if one was opened; `closeErr` is what the file system answers. */
    method Close(closeErr: Option<string>) returns (err: Option<string>)
      ensures err == (if hasFile then closeErr else None)
    {
      if hasFile {
        return closeErr;
      }
      return None;
    }
  }
}
