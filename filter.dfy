// The filterRows processor: keeps the records whose column compares true against a
// configured value, numerically when both sides are numbers, as text otherwise.
module FilterRows {
  import opened Wrappers
  import opened Values
  import opened Pipeline

  const Name: string := "filterRows"

  /** strconv.ParseFloat(s, 64), left abstract; None is a parse error. */
  type FloatParser = string -> Option<Float64>

  const NumericOperators: set<string> := {"=", "==", "!=", "<>", ">", ">=", "<", "<="}
  const EqualityOperators: set<string> := {"=", "==", "!=", "<>"}

  /** toFloat: the numeric reading of a cell, if it has one. */
  function ToFloat(v: Value, parseFloat: FloatParser): (r: Option<real>)
    ensures (v.Null? || v.Bool?) ==> r.None?
    ensures v.Float? ==> r == Some(v.f.x)
    ensures v.Int? ==> r == Some(v.i as real)
    ensures v.Number? ==> r == (if parseFloat(v.text).Some? then Some(parseFloat(v.text).value.x) else None)
    ensures v.Str? ==> r == (if parseFloat(v.s).Some? then Some(parseFloat(v.s).value.x) else None)
  {
    match v
    case Float(f) => Some(f.x)
    case Int(i) => Some(i as real)
    case Number(t) => (match parseFloat(t) case Some(f) => Some(f.x) case None => None)
    case Str(s) => (match parseFloat(s) case Some(f) => Some(f.x) case None => None)
    case Null => None
    case Bool(_) => None
  }

  /** compare: the configured value is a string; numbers are compared when both sides
      read as numbers, the %v texts otherwise. */
  function Compare(operator: string, recordValue: Value, configValue: string, parseFloat: FloatParser): (r: Result<bool>)
    ensures ToFloat(recordValue, parseFloat).Some? && parseFloat(configValue).Some? ==>
      (r.Ok? <==> operator in NumericOperators)
    ensures ToFloat(recordValue, parseFloat).Some? && parseFloat(configValue).Some? ==>
      var x, y := ToFloat(recordValue, parseFloat).value, parseFloat(configValue).value.x;
      && (operator in {"=", "=="} ==> r == Ok(x == y))
      && (operator in {"!=", "<>"} ==> r == Ok(x != y))
      && (operator == ">" ==> r == Ok(x > y))
      && (operator == ">=" ==> r == Ok(x >= y))
      && (operator == "<" ==> r == Ok(x < y))
      && (operator == "<=" ==> r == Ok(x <= y))
    ensures !(ToFloat(recordValue, parseFloat).Some? && parseFloat(configValue).Some?) ==>
      (r.Ok? <==> operator in EqualityOperators)
    ensures !(ToFloat(recordValue, parseFloat).Some? && parseFloat(configValue).Some?) && r.Ok? ==>
      (r.value <==> ((operator == "=" || operator == "==") <==> Format(recordValue) == configValue))
    ensures r.Err? && ToFloat(recordValue, parseFloat).Some? && parseFloat(configValue).Some? ==>
      r.msg == "unsupported numeric operator: '" + operator + "'"
    ensures r.Err? && !(ToFloat(recordValue, parseFloat).Some? && parseFloat(configValue).Some?) ==>
      r.msg == "unsupported string operator: '" + operator
               + "' (only '=', '==', '!=', '<>' are supported for non-numeric comparisons)"
  {
    var a := ToFloat(recordValue, parseFloat);
    var b := parseFloat(configValue);
    if a.Some? && b.Some? then
      var x, y := a.value, b.value.x;
      if operator == "=" || operator == "==" then Ok(x == y)
      else if operator == "!=" || operator == "<>" then Ok(x != y)
      else if operator == ">" then Ok(x > y)
      else if operator == ">=" then Ok(x >= y)
      else if operator == "<" then Ok(x < y)
      else if operator == "<=" then Ok(x <= y)
      else Err("unsupported numeric operator: '" + operator + "'")
    else
      var s1, s2 := Format(recordValue), configValue;
      if operator == "=" || operator == "==" then Ok(s1 == s2)
      else if operator == "!=" || operator == "<>" then Ok(s1 != s2)
      else Err("unsupported string operator: '" + operator + "' (only '=', '==', '!=', '<>' are supported for non-numeric comparisons)")
  }

  class Processor {
    var column: string
    var operator: string
    var value: string

    constructor()
      ensures column == "" && operator == "" && value == ""
    {
      column, operator, value := "", "", "";
    }

    /** Open stores column, operator and value one after the other, stopping at the first
        missing one; fields stored before the failure keep their new value. */
    method Open(config: map<string, string>) returns (err: Option<string>)
      modifies this
      ensures ("column" !in config || config["column"] == "") ==>
        err == Some("filterRows processor: config is missing or has invalid 'column'")
        && column == old(column) && operator == old(operator) && value == old(value)
      ensures ("column" in config && config["column"] != "") && ("operator" !in config || config["operator"] == "") ==>
        err == Some("filterRows processor: config is missing or has invalid 'operator'")
        && column == config["column"] && operator == old(operator) && value == old(value)
      ensures ("column" in config && config["column"] != "") && ("operator" in config && config["operator"] != "") && "value" !in config ==>
        err == Some("filterRows processor: config is missing 'value'")
        && column == config["column"] && operator == config["operator"] && value == old(value)
      ensures ("column" in config && config["column"] != "") && ("operator" in config && config["operator"] != "") && "value" in config ==>
        err.None? && column == config["column"] && operator == config["operator"] && value == config["value"]
    {
      if "column" !in config || config["column"] == "" {
        return Some("filterRows processor: config is missing or has invalid 'column'");
      }
      column := config["column"];
      if "operator" !in config || config["operator"] == "" {
        return Some("filterRows processor: config is missing or has invalid 'operator'");
      }
      operator := config["operator"];
      if "value" !in config {
        return Some("filterRows processor: config is missing 'value'");
      }
      value := config["value"];
      return None;
    }

    /** Process keeps a record unchanged when the comparison holds and drops it otherwise;
        a record without the column is dropped, and a comparison error names the column. */
    function Process(record: Record, parseFloat: FloatParser): (res: ProcessResult)
      reads this
      ensures column !in record ==> res == Filtered
      ensures res.Emit? <==> column in record && Compare(operator, record[column], value, parseFloat) == Ok(true)
      ensures res.Emit? ==> res.r == record
      ensures res.ProcessFailure? <==> column in record && Compare(operator, record[column], value, parseFloat).Err?
      ensures res.ProcessFailure? ==> (res.msg == "filterRows processor: error comparing values for column '" + column + "': "
        + Compare(operator, record[column], value, parseFloat).msg)
    {
      if column !in record then Filtered
      else
        match Compare(operator, record[column], value, parseFloat)
        case Err(e) => ProcessFailure("filterRows processor: error comparing values for column '" + column + "': " + e)
        case Ok(true) => Emit(record)
        case Ok(false) => Filtered
    }

    /** HandleColumns leaves the column mapping as it is. */
    function HandleColumns(columns: Mapping): (edited: Mapping)
      ensures edited == columns
    {
      columns
    }
  }

  /** "=" and "!=" (and "==" and "<>") never fail and always disagree, on numbers and on text. */
  lemma EqualityComplement(recordValue: Value, configValue: string, parseFloat: FloatParser)
    ensures Compare("=", recordValue, configValue, parseFloat).Ok?
    ensures Compare("!=", recordValue, configValue, parseFloat).Ok?
    ensures Compare("=", recordValue, configValue, parseFloat).value != Compare("!=", recordValue, configValue, parseFloat).value
    ensures Compare("==", recordValue, configValue, parseFloat) == Compare("=", recordValue, configValue, parseFloat)
    ensures Compare("<>", recordValue, configValue, parseFloat) == Compare("!=", recordValue, configValue, parseFloat)
  {
    assert "=" in EqualityOperators && "==" in EqualityOperators;
    assert "!=" in EqualityOperators && "<>" in EqualityOperators;
    if ToFloat(recordValue, parseFloat).Some? && parseFloat(configValue).Some? {
      assert "=" in NumericOperators && "!=" in NumericOperators;
      var x, y := ToFloat(recordValue, parseFloat).value, parseFloat(configValue).value.x;
      assert Compare("=", recordValue, configValue, parseFloat) == Ok(x == y);
      assert Compare("!=", recordValue, configValue, parseFloat) == Ok(x != y);
    } else {
      var s1 := Format(recordValue);
      assert Compare("=", recordValue, configValue, parseFloat) == Ok(s1 == configValue);
      assert Compare("!=", recordValue, configValue, parseFloat) == Ok(s1 != configValue);
    }
  }

  /** On numbers the strict and non-strict orderings are complements: a record is kept by
      ">" exactly when "<=" drops it, and by "<" exactly when ">=" drops it. */
  lemma OrderingComplement(recordValue: Value, configValue: string, parseFloat: FloatParser)
    requires ToFloat(recordValue, parseFloat).Some? && parseFloat(configValue).Some?
    ensures Compare(">", recordValue, configValue, parseFloat).Ok? && Compare("<=", recordValue, configValue, parseFloat).Ok?
    ensures Compare(">", recordValue, configValue, parseFloat).value != Compare("<=", recordValue, configValue, parseFloat).value
    ensures Compare("<", recordValue, configValue, parseFloat).Ok? && Compare(">=", recordValue, configValue, parseFloat).Ok?
    ensures Compare("<", recordValue, configValue, parseFloat).value != Compare(">=", recordValue, configValue, parseFloat).value
  {
  }

  /** An ordering operator on a side that is not a number is an error, never a silent drop. */
  lemma OrderingNeedsNumbers(operator: string, recordValue: Value, configValue: string, parseFloat: FloatParser)
    requires operator in {">", ">=", "<", "<="}
    requires ToFloat(recordValue, parseFloat).None? || parseFloat(configValue).None?
    ensures Compare(operator, recordValue, configValue, parseFloat).Err?
  {
  }
}
