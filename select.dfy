// The selectColumns processor: keeps only a configured list of columns.
module SelectColumns {
  import opened Wrappers
  import opened Values

  const Name: string := "selectColumns"

  /** Open's checks on its configuration; `decode` is json.Unmarshal into a list of strings. */
  function ParseConfig(config: map<string, string>, decode: string -> Option<seq<string>>): (r: Result<seq<string>>)
    ensures r.Ok? <==> ("columns" in config && decode(config["columns"]).Some? && |decode(config["columns"]).value| > 0)
    ensures r.Ok? ==> r.value == decode(config["columns"]).value
    ensures "columns" !in config ==> r == Err("selectColumns processor: config is missing required key 'columns'")
  {
    if "columns" !in config then Err("selectColumns processor: config is missing required key 'columns'")
    else match decode(config["columns"])
      case None => Err("selectColumns processor: 'columns' must be an array of strings")
      case Some(cs) => if |cs| == 0 then Err("selectColumns processor: 'columns' array cannot be empty") else Ok(cs)
  }

  /** The entries of a column mapping whose key is one of the kept columns. */
  function Selected(columns: Mapping, keep: seq<string>): (r: Mapping)
    ensures forall k :: k in r <==> k in columns && k in keep
    ensures forall k :: k in r ==> r[k] == columns[k]
  {
    map k | k in columns && k in keep :: columns[k]
  }

  class Processor {
    var columnsToKeep: seq<string>

    constructor()
      ensures columnsToKeep == []
    {
      columnsToKeep := [];
    }

    /** Open keeps the decoded column list, or reports why the configuration is unusable. */
    method Open(config: map<string, string>, decode: string -> Option<seq<string>>) returns (err: Option<string>)
      modifies this
      ensures ParseConfig(config, decode).Ok? ==> err.None? && columnsToKeep == ParseConfig(config, decode).value
      ensures ParseConfig(config, decode).Err? ==> err == Some(ParseConfig(config, decode).msg) && columnsToKeep == old(columnsToKeep)
    {
      var parsed := ParseConfig(config, decode);
      if parsed.Err? {
        return Some(parsed.msg);
      }
      columnsToKeep := parsed.value;
      return None;
    }

    /** Process builds a fresh record of the kept columns the input has; the others are skipped. */
    method Process(r: Record) returns (out: Record, err: Option<string>)
      ensures err.None?
      ensures forall c :: c in out <==> c in columnsToKeep && c in r
      ensures forall c :: c in out ==> out[c] == r[c]
    {
      out := map[];
      var i := 0;
      while i < |columnsToKeep|
        invariant 0 <= i <= |columnsToKeep|
        invariant forall c :: c in out <==> c in columnsToKeep[..i] && c in r
        invariant forall c :: c in out ==> out[c] == r[c]
      {
        var colName := columnsToKeep[i];
        if colName in r {
          out := out[colName := r[colName]];
        }
        assert columnsToKeep[..i + 1] == columnsToKeep[..i] + [colName];
        i := i + 1;
      }
      assert columnsToKeep[..i] == columnsToKeep;
      err := None;
    }

    /** HandleColumns deletes, in place, every column mapping entry whose key is not kept. */
    method HandleColumns(columns: Mapping) returns (edited: Mapping)
      ensures edited == Selected(columns, columnsToKeep)
    {
      edited := columns;
      var remaining := columns.Keys;
      while remaining != {}
        invariant remaining <= columns.Keys
        invariant forall k :: k in edited <==> k in columns && (k in remaining || k in columnsToKeep)
        invariant forall k :: k in edited ==> edited[k] == columns[k]
        decreases remaining
      {
        var k :| k in remaining;
        var matched := false;
        var j := 0;
        while j < |columnsToKeep|
          invariant 0 <= j <= |columnsToKeep|
          invariant !matched && k !in columnsToKeep[..j]
        {
          if k == columnsToKeep[j] {
            matched := true;
            break;
          }
          assert columnsToKeep[..j + 1] == columnsToKeep[..j] + [columnsToKeep[j]];
          j := j + 1;
        }
        assert matched <==> k in columnsToKeep by {
          if !matched {
            assert columnsToKeep[..j] == columnsToKeep;
          }
        }
        if !matched {
          edited := edited - {k};
        }
        remaining := remaining - {k};
      }
    }
  }

  /** Selecting twice keeps what selecting once kept, and only kept columns remain. */
  lemma SelectedIdempotent(columns: Mapping, keep: seq<string>)
    ensures Selected(Selected(columns, keep), keep) == Selected(columns, keep)
    ensures Selected(columns, keep).Keys <= set c | c in keep
  {
  }
}
