// The maskData processor: replaces one column of each record, in place, with the
// hex digest of its %v text.
module MaskData {
  import opened Wrappers
  import opened Values

  const Name: string := "maskData"

  type Md5Digest = d: seq<Byte> | |d| == 16 witness seq(16, i => 0)
  type Sha256Digest = d: seq<Byte> | |d| == 32 witness seq(32, i => 0)

  /** The hash functions, left abstract: each maps the bytes of a text to its digest. */
  datatype Hashes = Hashes(md5: string -> Md5Digest, sha256: string -> Sha256Digest)

  /** The masked text for a cell's %v text, or the unsupported-method error. */
  function MaskText(hashMethod: string, text: string, hashes: Hashes): (r: Result<string>)
    ensures r.Ok? <==> hashMethod == "md5" || hashMethod == "sha256"
    ensures hashMethod == "md5" ==> r == Ok(HexEncode(hashes.md5(text))) && |r.value| == 32
    ensures hashMethod == "sha256" ==> r == Ok(HexEncode(hashes.sha256(text))) && |r.value| == 64
    ensures r.Ok? ==> forall i :: 0 <= i < |r.value| ==> r.value[i] in HexDigits
    ensures r.Err? ==> r.msg == "maskData processor: unsupported hashing method: '" + hashMethod + "'"
  {
    if hashMethod == "md5" then Ok(HexEncode(hashes.md5(text)))
    else if hashMethod == "sha256" then Ok(HexEncode(hashes.sha256(text)))
    else Err("maskData processor: unsupported hashing method: '" + hashMethod + "'")
  }

  /** What Process makes of a record: unchanged when the column is absent or nil,
      otherwise the column holds the masked text of its %v form. */
  function Masked(column: string, hashMethod: string, r: Record, hashes: Hashes): (res: Result<Record>)
    ensures (column !in r || r[column] == Null) ==> res == Ok(r)
    ensures res.Ok? ==> res.value.Keys == r.Keys
    ensures res.Ok? ==> forall k :: k in r && k != column ==> res.value[k] == r[k]
    ensures column in r && r[column] != Null ==>
      (res.Ok? <==> MaskText(hashMethod, Format(r[column]), hashes).Ok?)
    ensures res.Ok? && column in r && r[column] != Null ==>
      res.value[column] == Str(MaskText(hashMethod, Format(r[column]), hashes).value)
    ensures res.Err? ==> res.msg == "maskData processor: unsupported hashing method: '" + hashMethod + "'"
  {
    if column !in r || r[column] == Null then Ok(r)
    else
      match MaskText(hashMethod, Format(r[column]), hashes)
      case Ok(masked) => Ok(r[column := Str(masked)])
      case Err(e) => Err(e)
  }

  class Processor {
    var column: string
    var hashMethod: string

    constructor()
      ensures column == "" && hashMethod == ""
    {
      column, hashMethod := "", "";
    }

    /** Open stores column, then method, stopping at the first missing or empty one. */
    method Open(config: map<string, string>) returns (err: Option<string>)
      modifies this
      ensures ("column" !in config || config["column"] == "") ==>
        err == Some("maskData processor: config is missing or has invalid 'column'")
        && column == old(column) && hashMethod == old(hashMethod)
      ensures ("column" in config && config["column"] != "") && ("method" !in config || config["method"] == "") ==>
        err == Some("maskData processor: config is missing or has invalid 'method'")
        && column == config["column"] && hashMethod == old(hashMethod)
      ensures ("column" in config && config["column"] != "") && ("method" in config && config["method"] != "") ==>
        err.None? && column == config["column"] && hashMethod == config["method"]
    {
      if "column" !in config || config["column"] == "" {
        return Some("maskData processor: config is missing or has invalid 'column'");
      }
      column := config["column"];
      if "method" !in config || config["method"] == "" {
        return Some("maskData processor: config is missing or has invalid 'method'");
      }
      hashMethod := config["method"];
      return None;
    }

    /** Process overwrites the column in the caller's record, or leaves it untouched on error. */
    method Process(row: Row, hashes: Hashes) returns (err: Option<string>)
      modifies row
      ensures Masked(column, hashMethod, old(row.cells), hashes).Ok? ==>
        err.None? && row.cells == Masked(column, hashMethod, old(row.cells), hashes).value
      ensures Masked(column, hashMethod, old(row.cells), hashes).Err? ==>
        err == Some(Masked(column, hashMethod, old(row.cells), hashes).msg) && row.cells == old(row.cells)
    {
      if column !in row.cells {
        return None;
      }
      var original := row.cells[column];
      if original == Null {
        return None;
      }
      var valStr := Format(original);
      var masked: string;
      if hashMethod == "md5" {
        masked := HexEncode(hashes.md5(valStr));
      } else if hashMethod == "sha256" {
        masked := HexEncode(hashes.sha256(valStr));
      } else {
        return Some("maskData processor: unsupported hashing method: '" + hashMethod + "'");
      }
      row.cells := row.cells[column := Str(masked)];
      return None;
    }

    /** HandleColumns leaves the column mapping as it is. */
    function HandleColumns(columns: Mapping): (edited: Mapping)
      ensures edited == columns
    {
      columns
    }
  }

  /** Masking keeps every distinction the hash makes: two cells get the same mask only
      when their %v texts have the same digest. */
  lemma MaskSeparates(hashMethod: string, text1: string, text2: string, hashes: Hashes)
    requires MaskText(hashMethod, text1, hashes).Ok?
    requires MaskText(hashMethod, text1, hashes) == MaskText(hashMethod, text2, hashes)
    ensures hashMethod == "md5" ==> hashes.md5(text1) == hashes.md5(text2)
    ensures hashMethod == "sha256" ==> hashes.sha256(text1) == hashes.sha256(text2)
  {
    if hashMethod == "md5" {
      HexEncodeInjective(hashes.md5(text1), hashes.md5(text2));
    } else {
      HexEncodeInjective(hashes.sha256(text1), hashes.sha256(text2));
    }
  }
}
