// The convertType processor: re-parses one column of each record, in place, from its
// %v text into an int64, a float64, a string or a bool.
module ConvertType {
  import opened Wrappers
  import opened Values

  const Name: string := "convertType"

  /** The strconv parsers that are left abstract, and the text of a strconv.NumError
      for a given function name ("ParseInt", "ParseFloat", "ParseBool") and input. */
  datatype Library = Library(parseFloat: string -> Option<Float64>, numError: (string, string) -> string)

  /** strconv.ParseBool. */
  function ParseBool(s: string): (r: Option<bool>)
    ensures r == Some(true) <==> s in {"1", "t", "T", "TRUE", "true", "True"}
    ensures r == Some(false) <==> s in {"0", "f", "F", "FALSE", "false", "False"}
  {
    if s in {"1", "t", "T", "TRUE", "true", "True"} then Some(true)
    else if s in {"0", "f", "F", "FALSE", "false", "False"} then Some(false)
    else None
  }

  const TargetTypes: set<string> := {"integer", "int", "float", "double", "string", "boolean", "bool"}

  /** The new cell for a %v text, or the name of the strconv function that rejected it. */
  function ConvertText(toType: string, text: string, lib: Library): (r: Result<Value>)
    requires toType in TargetTypes
    ensures toType == "string" ==> r == Ok(Str(text))
    ensures toType in {"integer", "int"} ==> (r.Ok? <==> ParseInt64(text).Some?)
    ensures toType in {"integer", "int"} && r.Ok? ==> r.value == Int(ParseInt64(text).value)
    ensures toType in {"boolean", "bool"} ==> (r.Ok? <==> ParseBool(text).Some?)
    ensures toType in {"float", "double"} ==> (r.Ok? <==> lib.parseFloat(text).Some?)
    ensures r.Err? ==> r.msg in {"ParseInt", "ParseFloat", "ParseBool"}
  {
    if toType == "integer" || toType == "int" then
      (match ParseInt64(text) case Some(n) => Ok(Int(n)) case None => Err("ParseInt"))
    else if toType == "float" || toType == "double" then
      (match lib.parseFloat(text) case Some(f) => Ok(Float(f)) case None => Err("ParseFloat"))
    else if toType == "string" then Ok(Str(text))
    else
      (match ParseBool(text) case Some(b) => Ok(Bool(b)) case None => Err("ParseBool"))
  }

  /** What Process makes of a record: unchanged when the column is absent or nil; an error for
      an unknown target type or a failed parse; otherwise only the column is replaced. */
  function Converted(column: string, toType: string, r: Record, lib: Library): (res: Result<Record>)
    ensures (column !in r || r[column] == Null) ==> res == Ok(r)
    ensures column in r && r[column] != Null && toType !in TargetTypes ==>
      res == Err("convertType processor: unsupported target type: '" + toType + "'")
    ensures column in r && r[column] != Null && toType in TargetTypes ==>
      (res.Ok? <==> ConvertText(toType, Format(r[column]), lib).Ok?)
    ensures res.Ok? ==> res.value.Keys == r.Keys && forall k :: k in r && k != column ==> res.value[k] == r[k]
    ensures res.Ok? && column in r && r[column] != Null ==>
      res.value[column] == ConvertText(toType, Format(r[column]), lib).value
  {
    if column !in r || r[column] == Null then Ok(r)
    else if toType !in TargetTypes then Err("convertType processor: unsupported target type: '" + toType + "'")
    else
      var valStr := Format(r[column]);
      match ConvertText(toType, valStr, lib)
      case Ok(v) => Ok(r[column := v])
      case Err(fn) => Err("convertType processor: failed to convert value '" + valStr + "' to type '" + toType
                          + "' for column '" + column + "': " + lib.numError(fn, valStr))
  }

  /** The switch of Process on the target type: the parsed cell, or the name of the
      strconv function that rejected the text. */
  method ParseAs(toType: string, valStr: string, lib: Library) returns (converted: Value, failedIn: string)
    requires toType in TargetTypes
    ensures ConvertText(toType, valStr, lib) == if failedIn == "" then Ok(converted) else Err(failedIn)
  {
    converted, failedIn := Null, "";
    if toType == "integer" || toType == "int" {
      var n := ParseInt64(valStr);
      if n.None? {
        failedIn := "ParseInt";
      } else {
        converted := Int(n.value);
      }
    } else if toType == "float" || toType == "double" {
      var f := lib.parseFloat(valStr);
      if f.None? {
        failedIn := "ParseFloat";
      } else {
        converted := Float(f.value);
      }
    } else if toType == "string" {
      converted := Str(valStr);
    } else {
      var b := ParseBool(valStr);
      if b.None? {
        failedIn := "ParseBool";
      } else {
        converted := Bool(b.value);
      }
    }
  }

  class Processor {
    var column: string
    var toType: string

    constructor()
      ensures column == "" && toType == ""
    {
      column, toType := "", "";
    }

    /** Open stores column, then type, stopping at the first missing or empty one. */
    method Open(config: map<string, string>) returns (err: Option<string>)
      modifies this
      ensures ("column" !in config || config["column"] == "") ==>
        err == Some("convertType processor: config is missing or has invalid 'column'")
        && column == old(column) && toType == old(toType)
      ensures ("column" in config && config["column"] != "") && ("type" !in config || config["type"] == "") ==>
        err == Some("convertType processor: config is missing or has invalid 'type'")
        && column == config["column"] && toType == old(toType)
      ensures ("column" in config && config["column"] != "") && ("type" in config && config["type"] != "") ==>
        err.None? && column == config["column"] && toType == config["type"]
    {
      if "column" !in config || config["column"] == "" {
        return Some("convertType processor: config is missing or has invalid 'column'");
      }
      column := config["column"];
      if "type" !in config || config["type"] == "" {
        return Some("convertType processor: config is missing or has invalid 'type'");
      }
      toType := config["type"];
      return None;
    }

    /** Process overwrites the column in the caller's record, or leaves it untouched on error. */
    method Process(row: Row, lib: Library) returns (err: Option<string>)
      modifies row
      ensures Converted(column, toType, old(row.cells), lib).Ok? ==>
        err.None? && row.cells == Converted(column, toType, old(row.cells), lib).value
      ensures Converted(column, toType, old(row.cells), lib).Err? ==>
        err == Some(Converted(column, toType, old(row.cells), lib).msg) && row.cells == old(row.cells)
    {
      if column !in row.cells {
        return None;
      }
      var original := row.cells[column];
      if original == Null {
        return None;
      }
      var valStr := Format(original);
      if toType !in TargetTypes {
        return Some("convertType processor: unsupported target type: '" + toType + "'");
      }
      var converted, failedIn := ParseAs(toType, valStr, lib);
      if failedIn != "" {
        return Some("convertType processor: failed to convert value '" + valStr + "' to type '" + toType
                    + "' for column '" + column + "': " + lib.numError(failedIn, valStr));
      }
      row.cells := row.cells[column := converted];
      return None;
    }

    /** HandleColumns leaves the column mapping as it is. */
    function HandleColumns(columns: Mapping): (edited: Mapping)
      ensures edited == columns
    {
      columns
    }
  }

  /** Converting an int64 cell to "int" gives the same number back. */
  lemma IntStaysInt(column: string, toType: string, r: Record, lib: Library)
    requires toType in {"integer", "int"}
    requires column in r && r[column].Int? && MinInt64 <= r[column].i <= MaxInt64
    ensures Converted(column, toType, r, lib) == Ok(r)
  {
    ParseFormatInt(r[column].i);
    assert r[column := Int(r[column].i)] == r;
  }

  /** Converting a bool cell to "bool" gives the same bool back. */
  lemma BoolStaysBool(column: string, toType: string, r: Record, lib: Library)
    requires toType in {"boolean", "bool"}
    requires column in r && r[column].Bool?
    ensures Converted(column, toType, r, lib) == Ok(r)
  {
    assert r[column := Bool(r[column].b)] == r;
  }

  /** Converting to "string" always succeeds and stores the %v text. */
  lemma StringAlwaysSucceeds(column: string, r: Record, lib: Library)
    requires column in r && r[column] != Null
    ensures Converted(column, "string", r, lib) == Ok(r[column := Str(Format(r[column]))])
  {
  }
}
