// The renameColumn processor: renames record columns through a configured
// old-name -> new-name mapping, and renames the pipeline's column mapping to match.
module RenameColumn {
  import opened Wrappers
  import opened Values

  const Name: string := "renameColumn"

  /** The name a column has after renaming: its mapped name, or itself. */
  function NewName(mapping: Mapping, k: string): string
  {
    if k in mapping then mapping[k] else k
  }

  /** The names a set of columns take after renaming. */
  ghost function Renamed(mapping: Mapping, keys: set<string>): set<string>
  {
    set k | k in keys :: NewName(mapping, k)
  }

  /** No two of the columns land on the same name. */
  ghost predicate Injective(mapping: Mapping, keys: set<string>)
  {
    forall a, b :: a in keys && b in keys && NewName(mapping, a) == NewName(mapping, b) ==> a == b
  }

  /** Column k of r shares its new name with no other column of r. */
  ghost predicate Alone(mapping: Mapping, r: Record, k: string)
  {
    forall k2 :: k2 in r && NewName(mapping, k2) == NewName(mapping, k) ==> k2 == k
  }

  /** Open's checks on its configuration; `decode` is json.Unmarshal into a map of strings. */
  function ParseConfig(config: map<string, string>, decode: string -> Option<Mapping>): (r: Result<Mapping>)
    ensures r.Ok? <==> ("mapping" in config && decode(config["mapping"]).Some? && |decode(config["mapping"]).value| > 0)
    ensures r.Ok? ==> r.value == decode(config["mapping"]).value && |r.value| > 0
    ensures "mapping" !in config ==> r == Err("renameColumn processor: config is missing required key 'mapping'")
  {
    if "mapping" !in config then Err("renameColumn processor: config is missing required key 'mapping'")
    else match decode(config["mapping"])
      case None => Err("renameColumn processor: 'mapping' must be a map (key-value pairs)")
      case Some(m) => if |m| == 0 then Err("renameColumn processor: 'mapping' cannot be empty") else Ok(m)
  }

  /** No column of `columns` is renamed to a name the mapping renames again, identity
      entries aside. A name HandleColumns inserts is then never renamed when the range
      loop meets it, so the outcome does not depend on whether Go visits inserted keys
      nor on the iteration order. */
  ghost predicate NotChained(mapping: Mapping, columns: Mapping)
  {
    forall k :: k in columns && k in mapping && mapping[k] != k ==> mapping[k] !in mapping
  }

  /** New names introduced by the renamed (non-identity) columns among `visited`. */
  ghost function Targets(mapping: Mapping, visited: set<string>): set<string>
  {
    set k | k in visited && k in mapping && mapping[k] != k :: mapping[k]
  }

  /** The column mapping once the columns in `visited` have been handled. */
  ghost function Handled(mapping: Mapping, columns: Mapping, visited: set<string>): Mapping
  {
    var keys := (set n | n in columns && !(n in visited && n in mapping)) + Targets(mapping, visited);
    map n | n in keys :: if n in Targets(mapping, visited) then n else columns[n]
  }

  /** What HandleColumns leaves for a mapping that is not chained. */
  ghost function Expected(mapping: Mapping, columns: Mapping): Mapping
  {
    Handled(mapping, columns, columns.Keys)
  }

  class Processor {
    var mapping: Mapping

    constructor()
      ensures mapping == map[]
    {
      mapping := map[];
    }

    /** Open keeps the decoded mapping, or reports why the configuration is unusable. */
    method Open(config: map<string, string>, decode: string -> Option<Mapping>) returns (err: Option<string>)
      modifies this
      ensures ParseConfig(config, decode).Ok? ==> err.None? && mapping == ParseConfig(config, decode).value
      ensures ParseConfig(config, decode).Err? ==> err == Some(ParseConfig(config, decode).msg) && mapping == old(mapping)
    {
      var parsed := ParseConfig(config, decode);
      if parsed.Err? {
        return Some(parsed.msg);
      }
      mapping := parsed.value;
      return None;
    }

    /** Process builds a fresh record, visiting the input's columns in some order. */
    method Process(r: Record) returns (out: Record, err: Option<string>)
      ensures err.None?
      ensures out.Keys == Renamed(mapping, r.Keys)
      ensures forall k :: k in r && Alone(mapping, r, k) ==> out[NewName(mapping, k)] == r[k]
      ensures forall n :: n in out ==> exists k :: k in r && NewName(mapping, k) == n && out[n] == r[k]
    {
      out := map[];
      var remaining := r.Keys;
      while remaining != {}
        invariant remaining <= r.Keys
        invariant out.Keys == Renamed(mapping, r.Keys - remaining)
        invariant forall k :: k in r && k !in remaining && Alone(mapping, r, k) ==> out[NewName(mapping, k)] == r[k]
        invariant forall n :: n in out ==> exists k :: k in r && k !in remaining && NewName(mapping, k) == n && out[n] == r[k]
        decreases remaining
      {
        var k :| k in remaining;
        out := out[NewName(mapping, k) := r[k]];
        remaining := remaining - {k};
        assert r.Keys - remaining == (r.Keys - (remaining + {k})) + {k};
      }
      assert r.Keys - remaining == r.Keys;
      err := None;
    }

    /** HandleColumns renames the pipeline's column mapping in place. The loop visits the
        keys present when it starts and skips the keys it inserts, which is one of the
        behaviours Go's range allows. For a mapping that is not chained every key it
        inserts is outside the mapping, so visiting it as well would change nothing. */
    method HandleColumns(columns: Mapping) returns (edited: Mapping)
      ensures forall u :: u in columns && u !in mapping ==> u in edited
      ensures forall n :: n in edited ==> n in columns || n in mapping.Values
      ensures NotChained(mapping, columns) ==> forall n :: n in edited ==> n in columns || RenamedTo(mapping, columns, n)
      ensures NotChained(mapping, columns) ==> forall n :: n in edited && n !in columns ==> n !in mapping
      ensures NotChained(mapping, columns) ==> edited == Expected(mapping, columns)
    {
      edited := columns;
      var remaining := columns.Keys;
      while remaining != {}
        invariant remaining <= columns.Keys
        invariant HandledSoFar(mapping, columns, edited, columns.Keys - remaining)
        decreases remaining
      {
        var k :| k in remaining;
        ghost var visited := columns.Keys - remaining;
        edited := RenameOne(mapping, columns, edited, visited, k);
        remaining := remaining - {k};
        assert columns.Keys - remaining == visited + {k};
      }
      assert columns.Keys - remaining == columns.Keys;
    }
  }

  /** What the renaming loop keeps after visiting `visited`: unvisited keys are still
      there, unmapped keys stay, every key is an original or a new name, and without
      chains an inserted key is outside the mapping and the result is the reference one. */
  ghost predicate HandledSoFar(mapping: Mapping, columns: Mapping, edited: Mapping, visited: set<string>)
  {
    && columns.Keys - visited <= edited.Keys
    && (forall u :: u in columns && u !in mapping ==> u in edited)
    && (forall n :: n in edited ==> n in columns || RenamedTo(mapping, columns, n))
    && (NotChained(mapping, columns) ==> forall n :: n in edited && n !in columns ==> n !in mapping)
    && (NotChained(mapping, columns) ==> edited == Handled(mapping, columns, visited))
  }

  /** One turn of the renaming loop, on key k. */
  method RenameOne(mapping: Mapping, columns: Mapping, edited: Mapping, ghost visited: set<string>, k: string)
    returns (edited': Mapping)
    requires visited <= columns.Keys && k in columns && k !in visited
    requires HandledSoFar(mapping, columns, edited, visited)
    ensures HandledSoFar(mapping, columns, edited', visited + {k})
  {
    edited' := edited;
    if k in mapping {
      var newKey := mapping[k];
      assert RenamedTo(mapping, columns, newKey);
      edited' := edited'[newKey := newKey];
      edited' := edited' - {k};
      if NotChained(mapping, columns) {
        HandleStep(mapping, columns, visited, k);
      }
    } else {
      if NotChained(mapping, columns) {
        assert Handled(mapping, columns, visited + {k}) == Handled(mapping, columns, visited) by {
          assert Targets(mapping, visited + {k}) == Targets(mapping, visited);
        }
      }
    }
  }

  /** Some column of `columns` is renamed to `n`. */
  predicate RenamedTo(mapping: Mapping, columns: Mapping, n: string)
  {
    exists k :: k in columns && k in mapping && mapping[k] == n
  }

  /** One renamed column handled: its new name is set to itself, then it is deleted. */
  lemma HandleStep(mapping: Mapping, columns: Mapping, visited: set<string>, k: string)
    requires NotChained(mapping, columns)
    requires k in columns && k in mapping && k !in visited && visited <= columns.Keys
    ensures Handled(mapping, columns, visited + {k})
         == Handled(mapping, columns, visited)[mapping[k] := mapping[k]] - {k}
  {
    var t := mapping[k];
    var before := Handled(mapping, columns, visited);
    var after := Handled(mapping, columns, visited + {k});
    forall k2 | k2 in visited && k2 in mapping && mapping[k2] != k2
      ensures mapping[k2] != k
    {
    }
    assert k !in Targets(mapping, visited);
    if t != k {
      assert Targets(mapping, visited + {k}) == Targets(mapping, visited) + {t};
    } else {
      assert Targets(mapping, visited + {k}) == Targets(mapping, visited);
    }
    assert after.Keys == (before[t := t] - {k}).Keys;
  }

  /** The names after renaming are never more than the columns renamed, and exactly as
      many when no two columns land on the same name. */
  lemma {:induction false} RenamedSize(mapping: Mapping, keys: set<string>)
    ensures |Renamed(mapping, keys)| <= |keys|
    ensures |Renamed(mapping, keys)| == |keys| <==> Injective(mapping, keys)
    decreases keys
  {
    if keys != {} {
      var k :| k in keys;
      var rest := keys - {k};
      RenamedSize(mapping, rest);
      assert Renamed(mapping, keys) == Renamed(mapping, rest) + {NewName(mapping, k)};
      if NewName(mapping, k) in Renamed(mapping, rest) {
        var k2 :| k2 in rest && NewName(mapping, k2) == NewName(mapping, k);
        assert !Injective(mapping, keys);
      } else {
        if Injective(mapping, rest) {
          assert Injective(mapping, keys);
        }
      }
    } else {
      assert Renamed(mapping, keys) == {};
    }
  }

  /** For a mapping that is not chained, HandleColumns removes every renamed column,
      introduces each new name mapped to itself, and keeps the other columns. */
  lemma ExpectedColumns(mapping: Mapping, columns: Mapping)
    requires NotChained(mapping, columns)
    ensures forall k :: k in columns && k in mapping ==> k !in Expected(mapping, columns)
    ensures forall k :: k in columns && k in mapping && mapping[k] != k ==>
      mapping[k] in Expected(mapping, columns) && Expected(mapping, columns)[mapping[k]] == mapping[k]
    ensures forall u :: u in columns && u !in mapping && u !in Targets(mapping, columns.Keys) ==>
      u in Expected(mapping, columns) && Expected(mapping, columns)[u] == columns[u]
  {
    forall k, k2 | k in columns && k in mapping && k2 in columns && k2 in mapping && mapping[k2] != k2
      ensures mapping[k2] != k
    {
    }
  }

  /** An identity entry k -> k: Process keeps the column while HandleColumns drops it. */
  lemma IdentityEntry(mapping: Mapping, columns: Mapping, r: Record, k: string)
    requires NotChained(mapping, columns)
    requires k in mapping && mapping[k] == k && k in columns && k in r
    ensures k in Renamed(mapping, r.Keys)
    ensures k !in Expected(mapping, columns)
  {
    ExpectedColumns(mapping, columns);
  }
}
