// The registration sequence run at start-up (etl/init.go).
module Startup {
  import opened Wrappers
  import opened Registry

  /** The table that registering `cs` in order builds from an empty one. */
  function Stores(cs: seq<Creator>): map<string, Store>
  {
    if |cs| == 0 then map[]
    else var c := cs[|cs| - 1]; Stores(cs[..|cs| - 1])[c.name := Store(c.name, c.handle, c.params, c.datasource)]
  }

  predicate DistinctNames(cs: seq<Creator>)
  {
    forall i, j :: 0 <= i < j < |cs| ==> cs[i].name != cs[j].name
  }

  /** The table has no key that is not some creator's name. */
  lemma {:induction false} KeysWithin(cs: seq<Creator>, names: set<string>)
    requires forall c :: c in cs ==> c.name in names
    ensures Stores(cs).Keys <= names
  {
    if |cs| > 0 {
      assert forall c :: c in cs[..|cs| - 1] ==> c in cs;
      KeysWithin(cs[..|cs| - 1], names);
    }
  }

  lemma {:induction false} NameAbsent(cs: seq<Creator>, x: string)
    requires forall i :: 0 <= i < |cs| ==> cs[i].name != x
    ensures x !in Stores(cs)
  {
    if |cs| > 0 {
      NameAbsent(cs[..|cs| - 1], x);
    }
  }

  /** With distinct names, each creator's store is found under its name. */
  lemma {:induction false} StoresLookup(cs: seq<Creator>, i: nat)
    requires DistinctNames(cs) && i < |cs|
    ensures cs[i].name in Stores(cs)
    ensures Stores(cs)[cs[i].name] == Store(cs[i].name, cs[i].handle, cs[i].params, cs[i].datasource)
  {
    if i < |cs| - 1 {
      StoresLookup(cs[..|cs| - 1], i);
    }
  }

  /** Every creator's name ends up in the table. */
  lemma {:induction false} NameIn(cs: seq<Creator>, i: nat)
    requires i < |cs|
    ensures cs[i].name in Stores(cs)
  {
    if i < |cs| - 1 {
      NameIn(cs[..|cs| - 1], i);
    }
  }

  /** When each creator's datasource is a function of its name, so is each stored one's. */
  lemma {:induction false} StoresFollow(cs: seq<Creator>, ds: string -> Option<string>)
    requires forall i :: 0 <= i < |cs| ==> cs[i].datasource == ds(cs[i].name)
    ensures forall n :: n in Stores(cs) ==> Stores(cs)[n].datasource == ds(n)
  {
    if |cs| > 0 {
      StoresFollow(cs[..|cs| - 1], ds);
    }
  }

  /** The datasource a source or sink of this name depends on. */
  function NamedDatasource(n: string): Option<string>
  {
    if n == "csv" || n == "json" then None else Some(n)
  }

  lemma StoresNext(cs: seq<Creator>, i: nat)
    requires i < |cs|
    ensures Stores(cs[..i + 1]) == Stores(cs[..i])[cs[i].name := Store(cs[i].name, cs[i].handle, cs[i].params, cs[i].datasource)]
  {
    assert cs[..i + 1][..i] == cs[..i];
  }

  /** A run of Register calls of one kind into an empty table. */
  method RegisterAll(f: Factory, kind: Kind, cs: seq<Creator>)
    requires f.Table(kind) == map[] && !f.halted && f.Valid()
    requires DistinctNames(cs)
    requires forall i :: 0 <= i < |cs| ==> (CarriesDatasource(kind) || cs[i].datasource.None?)
    requires forall i :: 0 <= i < |cs| && cs[i].datasource.Some? ==> cs[i].datasource.value in f.Table(DatasourceKind)
    requires kind != DatasourceKind
    modifies f
    ensures !f.halted && f.Valid()
    ensures f.tables == old(f.tables)[kind := Stores(cs)]
  {
    var i := 0;
    while i < |cs|
      invariant 0 <= i <= |cs|
      invariant !f.halted && f.Valid()
      invariant f.tables == old(f.tables)[kind := Stores(cs[..i])]
    {
      RegisterNext(f, kind, cs, i, old(f.tables));
      i := i + 1;
    }
    assert cs[..i] == cs;
  }

  /** One turn of RegisterAll: creator i's name is not in the table yet, and its
      datasource, if any, is registered, so Register adds it. */
  method RegisterNext(f: Factory, kind: Kind, cs: seq<Creator>, i: nat, ghost tables0: map<Kind, map<string, Store>>)
    requires i < |cs| && kind != DatasourceKind
    requires !f.halted && f.Valid()
    requires DistinctNames(cs)
    requires CarriesDatasource(kind) || cs[i].datasource.None?
    requires cs[i].datasource.Some? ==> cs[i].datasource.value in f.Table(DatasourceKind)
    requires f.tables == tables0[kind := Stores(cs[..i])]
    modifies f
    ensures !f.halted && f.Valid()
    ensures f.tables == tables0[kind := Stores(cs[..i + 1])]
  {
    NameAbsent(cs[..i], cs[i].name);
    StoresNext(cs, i);
    f.Register(kind, cs[i]);
  }

  /** The creators registered at start-up, by kind and in order. */
  function Datasources(declared: (Kind, string) -> seq<Param>): seq<Creator>
  {
    [Creator("doris", 0, None, declared(DatasourceKind, "doris")),
     Creator("mysql", 1, None, declared(DatasourceKind, "mysql")),
     Creator("postgre", 2, None, declared(DatasourceKind, "postgre")),
     Creator("sqlite", 3, None, declared(DatasourceKind, "sqlite"))]
  }

  function SqlCreators(kind: Kind, first: nat, declared: (Kind, string) -> seq<Param>): seq<Creator>
  {
    [Creator("mysql", first, Some("mysql"), declared(kind, "mysql")),
     Creator("postgre", first + 1, Some("postgre"), declared(kind, "postgre")),
     Creator("sqlite", first + 2, Some("sqlite"), declared(kind, "sqlite"))]
  }

  function Sources(declared: (Kind, string) -> seq<Param>): seq<Creator>
  {
    [Creator("mysql", 10, Some("mysql"), declared(SourceKind, "mysql")),
     Creator("postgre", 11, Some("postgre"), declared(SourceKind, "postgre")),
     Creator("csv", 12, None, declared(SourceKind, "csv")),
     Creator("json", 13, None, declared(SourceKind, "json")),
     Creator("sqlite", 14, Some("sqlite"), declared(SourceKind, "sqlite"))]
  }

  function Sinks(declared: (Kind, string) -> seq<Param>): seq<Creator>
  {
    [Creator("mysql", 15, Some("mysql"), declared(SinkKind, "mysql")),
     Creator("postgre", 16, Some("postgre"), declared(SinkKind, "postgre")),
     Creator("csv", 17, None, declared(SinkKind, "csv")),
     Creator("json", 18, None, declared(SinkKind, "json")),
     Creator("doris", 19, Some("doris"), declared(SinkKind, "doris")),
     Creator("sqlite", 20, Some("sqlite"), declared(SinkKind, "sqlite"))]
  }

  function Processors(declared: (Kind, string) -> seq<Param>): seq<Creator>
  {
    [Creator("convertType", 21, None, declared(ProcessorKind, "convertType")),
     Creator("filterRows", 22, None, declared(ProcessorKind, "filterRows")),
     Creator("maskData", 23, None, declared(ProcessorKind, "maskData")),
     Creator("renameColumn", 24, None, declared(ProcessorKind, "renameColumn")),
     Creator("selectColumns", 25, None, declared(ProcessorKind, "selectColumns"))]
  }

  /** The datasources, registered first, so that every later dependency check passes. */
  method RegisterDatasources(f: Factory, declared: (Kind, string) -> seq<Param>)
    requires f.Table(DatasourceKind) == map[] && !f.halted && f.Valid()
    modifies f
    ensures !f.halted && f.Valid()
    ensures f.tables == old(f.tables)[DatasourceKind := Stores(Datasources(declared))]
  {
    var cs := Datasources(declared);
    var i := 0;
    while i < |cs|
      invariant 0 <= i <= |cs|
      invariant !f.halted && f.Valid()
      invariant f.tables == old(f.tables)[DatasourceKind := Stores(cs[..i])]
    {
      NameAbsent(cs[..i], cs[i].name);
      f.Register(DatasourceKind, cs[i]);
      assert cs[..i + 1][..i] == cs[..i];
      i := i + 1;
    }
    assert cs[..i] == cs;
  }

  /** init(): datasources, variables, executors, sources, sinks, processors.
      No registration is fatal, and each table is what its list builds. The
      parameters each creator declares are data, given as `declared`. */
  method Init(f: Factory, declared: (Kind, string) -> seq<Param>)
    requires forall kind :: f.Table(kind) == map[]
    requires !f.halted && f.Valid()
    modifies f
    ensures !f.halted && f.Valid()
    ensures f.Table(DatasourceKind) == Stores(Datasources(declared))
    ensures f.Table(VariableKind) == Stores(SqlCreators(VariableKind, 4, declared))
    ensures f.Table(ExecutorKind) == Stores(SqlCreators(ExecutorKind, 7, declared))
    ensures f.Table(SourceKind) == Stores(Sources(declared))
    ensures f.Table(SinkKind) == Stores(Sinks(declared))
    ensures f.Table(ProcessorKind) == Stores(Processors(declared))
  {
    RegisterDatasources(f, declared);
    DatasourceTable(declared);
    RegisterSqlKind(f, VariableKind, 4, declared);
    RegisterSqlKind(f, ExecutorKind, 7, declared);
    RegisterSources(f, declared);
    RegisterSinks(f, declared);
    RegisterProcessors(f, declared);
  }

  /** The SQL-backed variables (handles 4-6) or executors (handles 7-9). */
  method RegisterSqlKind(f: Factory, kind: Kind, first: nat, declared: (Kind, string) -> seq<Param>)
    requires kind == VariableKind || kind == ExecutorKind
    requires f.Table(kind) == map[] && !f.halted && f.Valid()
    requires f.Table(DatasourceKind).Keys == {"doris", "mysql", "postgre", "sqlite"}
    modifies f
    ensures !f.halted && f.Valid()
    ensures f.tables == old(f.tables)[kind := Stores(SqlCreators(kind, first, declared))]
  {
    SqlTable(kind, first, declared);
    RegisterAll(f, kind, SqlCreators(kind, first, declared));
  }

  /** The five sources. */
  method RegisterSources(f: Factory, declared: (Kind, string) -> seq<Param>)
    requires f.Table(SourceKind) == map[] && !f.halted && f.Valid()
    requires f.Table(DatasourceKind).Keys == {"doris", "mysql", "postgre", "sqlite"}
    modifies f
    ensures !f.halted && f.Valid()
    ensures f.tables == old(f.tables)[SourceKind := Stores(Sources(declared))]
  {
    SourceTable(declared);
    RegisterAll(f, SourceKind, Sources(declared));
  }

  /** The six sinks. */
  method RegisterSinks(f: Factory, declared: (Kind, string) -> seq<Param>)
    requires f.Table(SinkKind) == map[] && !f.halted && f.Valid()
    requires f.Table(DatasourceKind).Keys == {"doris", "mysql", "postgre", "sqlite"}
    modifies f
    ensures !f.halted && f.Valid()
    ensures f.tables == old(f.tables)[SinkKind := Stores(Sinks(declared))]
  {
    SinkTable(declared);
    RegisterAll(f, SinkKind, Sinks(declared));
  }

  /** The five processors. */
  method RegisterProcessors(f: Factory, declared: (Kind, string) -> seq<Param>)
    requires f.Table(ProcessorKind) == map[] && !f.halted && f.Valid()
    modifies f
    ensures !f.halted && f.Valid()
    ensures f.tables == old(f.tables)[ProcessorKind := Stores(Processors(declared))]
  {
    ProcessorTable(declared);
    RegisterAll(f, ProcessorKind, Processors(declared));
  }

  /** The four datasources, distinct. */
  lemma DatasourceTable(declared: (Kind, string) -> seq<Param>)
    ensures DistinctNames(Datasources(declared))
    ensures Stores(Datasources(declared)).Keys == {"doris", "mysql", "postgre", "sqlite"}
  {
    var cs := Datasources(declared);
    KeysWithin(cs, {"doris", "mysql", "postgre", "sqlite"});
    StoresLookup(cs, 0);
    StoresLookup(cs, 1);
    StoresLookup(cs, 2);
    StoresLookup(cs, 3);
  }

  /** What init() puts in the table of an SQL-backed kind: mysql, postgre and
      sqlite, each depending on the datasource of its own name. */
  lemma SqlTable(kind: Kind, first: nat, declared: (Kind, string) -> seq<Param>)
    ensures var cs := SqlCreators(kind, first, declared);
      && DistinctNames(cs)
      && (forall i :: 0 <= i < |cs| ==> cs[i].datasource.Some? && cs[i].datasource.value in {"doris", "mysql", "postgre", "sqlite"})
      && Stores(cs).Keys == {"mysql", "postgre", "sqlite"}
      && (forall n :: n in Stores(cs) ==> Stores(cs)[n].datasource == Some(n))
  {
    var cs := SqlCreators(kind, first, declared);
    KeysWithin(cs, {"mysql", "postgre", "sqlite"});
    NameIn(cs, 0);
    NameIn(cs, 1);
    NameIn(cs, 2);
    StoresFollow(cs, n => Some(n));
  }

  /** The five sources, distinct; only csv and json need no datasource. */
  lemma SourceTable(declared: (Kind, string) -> seq<Param>)
    ensures var cs := Sources(declared);
      && DistinctNames(cs)
      && (forall i :: 0 <= i < |cs| && cs[i].datasource.Some? ==> cs[i].datasource.value in {"doris", "mysql", "postgre", "sqlite"})
      && Stores(cs).Keys == {"mysql", "postgre", "csv", "json", "sqlite"}
      && (forall n :: n in Stores(cs) ==> Stores(cs)[n].datasource == if n == "csv" || n == "json" then None else Some(n))
  {
    var cs := Sources(declared);
    KeysWithin(cs, {"mysql", "postgre", "csv", "json", "sqlite"});
    NameIn(cs, 0);
    NameIn(cs, 1);
    NameIn(cs, 2);
    NameIn(cs, 3);
    NameIn(cs, 4);
    StoresFollow(cs, NamedDatasource);
  }

  /** The six sinks, distinct; only csv and json need no datasource. */
  lemma SinkTable(declared: (Kind, string) -> seq<Param>)
    ensures var cs := Sinks(declared);
      && DistinctNames(cs)
      && (forall i :: 0 <= i < |cs| && cs[i].datasource.Some? ==> cs[i].datasource.value in {"doris", "mysql", "postgre", "sqlite"})
      && Stores(cs).Keys == {"mysql", "postgre", "csv", "json", "doris", "sqlite"}
      && (forall n :: n in Stores(cs) ==> Stores(cs)[n].datasource == if n == "csv" || n == "json" then None else Some(n))
  {
    var cs := Sinks(declared);
    KeysWithin(cs, {"mysql", "postgre", "csv", "json", "doris", "sqlite"});
    NameIn(cs, 0);
    NameIn(cs, 1);
    NameIn(cs, 2);
    NameIn(cs, 3);
    NameIn(cs, 4);
    NameIn(cs, 5);
    StoresFollow(cs, NamedDatasource);
  }

  /** The five processors, registered last, none depending on a datasource. */
  lemma ProcessorTable(declared: (Kind, string) -> seq<Param>)
    ensures var cs := Processors(declared);
      && DistinctNames(cs)
      && (forall i :: 0 <= i < |cs| ==> cs[i].datasource.None?)
      && Stores(cs).Keys == {"convertType", "filterRows", "maskData", "renameColumn", "selectColumns"}
      && (forall n :: n in Stores(cs) ==> Stores(cs)[n].datasource.None?)
  {
    var cs := Processors(declared);
    KeysWithin(cs, {"convertType", "filterRows", "maskData", "renameColumn", "selectColumns"});
    StoresLookup(cs, 0);
    StoresLookup(cs, 1);
    StoresLookup(cs, 2);
    StoresLookup(cs, 3);
    StoresLookup(cs, 4);
  }
}
