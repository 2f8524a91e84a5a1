// The component registry (etl/factory/factory.go): six tables from a type name
// to the store built once, at registration, from that type's creator.
module Registry {
  import opened Wrappers
  import opened Values

  /** A declared configuration parameter of a component type. */
  datatype Param = Param(key: string, required: bool, defaultValue: string, description: string)

  datatype Kind = DatasourceKind | VariableKind | ExecutorKind | SourceKind | SinkKind | ProcessorKind

  /** Whether creators of this kind can name a datasource they depend on. */
  predicate CarriesDatasource(kind: Kind)
  {
    kind != DatasourceKind && kind != ProcessorKind
  }

  /** What a creator returns: the type name, the component instance (by
      identity), the datasource type it needs if any, and its parameters. */
  datatype Creator = Creator(name: string, handle: nat, datasource: Option<string>, params: seq<Param>)

  /** A registry entry. */
  datatype Store = Store(name: string, handle: nat, params: seq<Param>, datasource: Option<string>)

  /** How the "not registered" error of Create* names each kind. */
  function KindWord(kind: Kind): string
  {
    match kind
    case SourceKind => "source"
    case ProcessorKind => "processor"
    case SinkKind => "sink"
    case ExecutorKind => "Executor"
    case VariableKind => "Variable"
    case DatasourceKind => "DataSource"
  }

  class Factory {
    /** The six registries (source, processor, sink, executor, variable,
        datasource), each from a type name to its store. */
    var tables: map<Kind, map<string, Store>>
    /** Set once zap's Fatal has been called: the process has exited. */
    var halted: bool

    constructor()
      ensures forall kind :: Table(kind) == map[]
      ensures !halted && Valid()
    {
      tables := map[DatasourceKind := map[], VariableKind := map[], ExecutorKind := map[],
                    SourceKind := map[], SinkKind := map[], ProcessorKind := map[]];
      halted := false;
    }

    function Table(kind: Kind): map<string, Store>
      reads this
    {
      if kind in tables then tables[kind] else map[]
    }

    /** Every entry sits under its own name, and every dependency it declares is a registered datasource. */
    ghost predicate Valid()
      reads this
    {
      && DatasourceKind in tables && VariableKind in tables && ExecutorKind in tables
      && SourceKind in tables && SinkKind in tables && ProcessorKind in tables
      && (forall kind :: Sound(Table(kind), CarriesDatasource(kind), Table(DatasourceKind).Keys))
    }

    /** Register*: a name already present in the kind's table is fatal, and so
        is a declared datasource that is not registered; otherwise the store is
        added to that table alone. */
    method Register(kind: Kind, c: Creator)
      requires !CarriesDatasource(kind) ==> c.datasource.None?
      requires Valid()
      modifies this
      ensures Valid()
      ensures c.name in old(Table(kind)) ==> halted && tables == old(tables)
      ensures c.name !in old(Table(kind)) && c.datasource.Some? && c.datasource.value !in old(Table(DatasourceKind)) ==>
        halted && tables == old(tables)
      ensures c.name !in old(Table(kind)) && (c.datasource.None? || c.datasource.value in old(Table(DatasourceKind))) ==>
        halted == old(halted) && tables == old(tables)[kind := old(Table(kind))[c.name := Store(c.name, c.handle, c.params, c.datasource)]]
    {
      if c.name in Table(kind) {
        halted := true;
        return;
      }
      if c.datasource.Some? && c.datasource.value !in Table(DatasourceKind) {
        halted := true;
        return;
      }
      ghost var ds := Table(DatasourceKind).Keys;
      tables := tables[kind := Table(kind)[c.name := Store(c.name, c.handle, c.params, c.datasource)]];
      forall k
        ensures Sound(Table(k), CarriesDatasource(k), Table(DatasourceKind).Keys)
      {
        assert Sound(old(Table(k)), CarriesDatasource(k), ds);
        assert ds <= Table(DatasourceKind).Keys;
      }
    }

    /** Create*: a copy of the store registered under the name, holding the one
        handle built at registration, or the "not registered" error. */
    function Create(kind: Kind, name: string): (r: Result<Store>)
      reads this
      ensures r.Ok? <==> name in Table(kind)
      ensures r.Ok? ==> r.value == Table(kind)[name]
      ensures r.Err? ==> r.msg == "factory error: no " + KindWord(kind) + " registered with name: " + name
    {
      if name in Table(kind) then Ok(Table(kind)[name])
      else Err("factory error: no " + KindWord(kind) + " registered with name: " + name)
    }

    /** Get*TypeList: every registered name of the kind once, in map iteration order. */
    method GetTypeList(kind: Kind) returns (types: seq<string>)
      ensures IsEnumeration(types, Table(kind).Keys)
    {
      types := [];
      var rest := Table(kind).Keys;
      while rest != {}
        invariant rest <= Table(kind).Keys
        invariant forall i, j :: 0 <= i < j < |types| ==> types[i] != types[j]
        invariant forall i :: 0 <= i < |types| ==> types[i] in Table(kind) && types[i] !in rest
        invariant forall n :: n in Table(kind) && n !in rest ==> n in types
        decreases |rest|
      {
        var n :| n in rest;
        types := types + [n];
        rest := rest - {n};
      }
    }
  }

  /** The entries of one table sit under their own names; they declare a
      datasource only when the kind may, and then a registered one. */
  ghost predicate Sound(table: map<string, Store>, carries: bool, ds: set<string>)
  {
    forall n :: n in table ==>
      table[n].name == n && (table[n].datasource.Some? ==> carries && table[n].datasource.value in ds)
  }
}
