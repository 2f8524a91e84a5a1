// The variable endpoints: creating or editing a variable record and deleting one. A variable
// type may declare that it reads from a datasource of a given type; the datasource rows are
// those of the datasource endpoints.
module VariableApi {
  import opened Wrappers
  import opened Registry
  import opened ApiParams
  import DatasourceApi

  /** A stored variable; `dataSourceId` is the nullable reference to a datasource row. */
  datatype VariableRow = VariableRow(id: string, name: string, typ: string, description: string,
                                     value: seq<KeyValue>, dataSourceId: Option<string>)

  datatype VariableRequest = VariableRequest(edit: string, id: string, name: string, typ: string,
                                             description: string, value: seq<KeyValue>,
                                             dataSourceId: Option<string>)

  predicate WellKeyed(rows: map<string, VariableRow>)
  {
    forall k :: k in rows ==> k != "" && rows[k].id == k
  }

  predicate NamesUnique(rows: map<string, VariableRow>)
  {
    forall a, b :: a in rows && b in rows && rows[a].name == rows[b].name ==> a == b
  }

  /** Some row other than `self` already carries the name. */
  predicate NameTaken(rows: map<string, VariableRow>, name: string, self: string)
  {
    exists k :: k in rows && rows[k].name == name && k != self
  }

  /** The ID excluded from the name search: the variable's own when editing, none otherwise. */
  function SelfId(req: VariableRequest): string
  {
    if req.edit == "true" then req.id else ""
  }

  /** Every datasource a variable refers to is a stored datasource. */
  predicate ReferencesResolve(rows: map<string, VariableRow>, sources: map<string, DatasourceApi.DataSourceRow>)
  {
    forall k :: k in rows && rows[k].dataSourceId.Some? ==> rows[k].dataSourceId.value in sources
  }

  /** The datasource rule: a type that declares a datasource type needs a stored datasource
      of exactly that type; a type that declares none accepts no datasource. */
  function DatasourceError(declared: Option<string>, given: Option<string>,
                           sources: map<string, DatasourceApi.DataSourceRow>): (r: Option<string>)
    ensures r.None? <==>
      (match declared
       case Some(t) => given.Some? && given.value in sources && sources[given.value].typ == t
       case None => given.None?)
    ensures declared.Some? && given.None? ==> r == Some("variable type need datasource")
    ensures declared.Some? && given.Some? && given.value !in sources ==> r == Some("datasource does not exist")
    ensures declared.Some? && given.Some? && given.value in sources && sources[given.value].typ != declared.value ==>
      r == Some("datasource type is not match")
    ensures declared.None? && given.Some? ==> r == Some("variable type do not support datasource")
  {
    match declared
    case Some(t) =>
      if given.None? then Some("variable type need datasource")
      else if given.value !in sources then Some("datasource does not exist")
      else if sources[given.value].typ != t then Some("datasource type is not match")
      else None
    case None =>
      if given.Some? then Some("variable type do not support datasource") else None
  }

  /** Deleting a datasource does not look at the variables: one that refers to it is left
      pointing at nothing. */
  lemma DeleteLeavesDangling(rows: map<string, VariableRow>, sources: map<string, DatasourceApi.DataSourceRow>, v: string)
    requires v in rows && rows[v].dataSourceId.Some?
    ensures !ReferencesResolve(rows, sources - {rows[v].dataSourceId.value})
  {
    assert rows[v].dataSourceId.value !in sources - {rows[v].dataSourceId.value};
  }

  class VariableTable {
    var rows: map<string, VariableRow>

    predicate Valid()
      reads this
    {
      WellKeyed(rows) && NamesUnique(rows)
    }

    constructor()
      ensures Valid() && rows == map[]
    {
      rows := map[];
    }

    /** NewVariable: the name must be free (of other rows when editing), an edited variable
        must exist, the type must be registered, the declared parameters complete and the
        datasource rule met; then the row under the request's ID (editing) or a fresh ID
        (creating) holds the submitted fields. `saveOk` is whether the save succeeds. */
    method NewVariable(reg: Factory, sources: DatasourceApi.DataSourceTable, req: VariableRequest,
                       newId: string, saveOk: bool)
      returns (resp: Option<string>, err: Option<string>)
      requires Valid()
      requires newId != "" && newId !in rows
      modifies this
      ensures Valid()
      ensures err.Some? ==> resp.None? && rows == old(rows)
      ensures NameTaken(old(rows), req.name, SelfId(req)) ==> err == Some("variable name already exists")
      ensures (!NameTaken(old(rows), req.name, SelfId(req)) && req.edit == "true" && req.id !in old(rows)) ==>
        err == Some("variable not exists")
      ensures (!NameTaken(old(rows), req.name, SelfId(req)) && (req.edit == "true" ==> req.id in old(rows))
               && reg.Create(VariableKind, req.typ).Err?) ==>
        err == Some("invalid variable type")
      ensures (!NameTaken(old(rows), req.name, SelfId(req)) && (req.edit == "true" ==> req.id in old(rows))
               && reg.Create(VariableKind, req.typ).Ok?
               && !Complete(reg.Create(VariableKind, req.typ).value.params, req.value)) ==>
        err == Some("variable value is not complete")
      ensures (!NameTaken(old(rows), req.name, SelfId(req)) && (req.edit == "true" ==> req.id in old(rows))
               && reg.Create(VariableKind, req.typ).Ok?
               && Complete(reg.Create(VariableKind, req.typ).value.params, req.value)) ==>
        (var e := DatasourceError(reg.Create(VariableKind, req.typ).value.datasource, req.dataSourceId, sources.rows);
         e.Some? ==> err == e)
      ensures err.None? <==>
        (!NameTaken(old(rows), req.name, SelfId(req)) && (req.edit == "true" ==> req.id in old(rows))
         && reg.Create(VariableKind, req.typ).Ok?
         && Complete(reg.Create(VariableKind, req.typ).value.params, req.value)
         && DatasourceError(reg.Create(VariableKind, req.typ).value.datasource, req.dataSourceId, sources.rows).None?
         && saveOk)
      ensures err.None? ==>
        var key := if req.edit == "true" then req.id else newId;
        resp == Some("success")
        && rows == old(rows)[key := VariableRow(key, req.name, req.typ, req.description, req.value, req.dataSourceId)]
      ensures ReferencesResolve(old(rows), sources.rows) ==> ReferencesResolve(rows, sources.rows)
    {
      if NameTaken(rows, req.name, SelfId(req)) {
        return None, Some("variable name already exists");
      }
      var key := newId;
      if req.edit == "true" {
        if req.id !in rows {
          return None, Some("variable not exists");
        }
        key := req.id;
      }
      var store := reg.Create(VariableKind, req.typ);
      if store.Err? {
        return None, Some("invalid variable type");
      }
      var complete := CheckParams(store.value.params, req.value);
      if !complete {
        return None, Some("variable value is not complete");
      }
      var dsErr := DatasourceError(store.value.datasource, req.dataSourceId, sources.rows);
      if dsErr.Some? {
        return None, dsErr;
      }
      if !saveOk {
        return None, Some("failed to save variable");
      }
      rows := rows[key := VariableRow(key, req.name, req.typ, req.description, req.value, req.dataSourceId)];
      return Some("success"), None;
    }

    /** DeleteVariable: an unknown ID is refused; otherwise the row is removed. */
    method DeleteVariable(id: string, deleteOk: bool) returns (resp: Option<string>, err: Option<string>)
      requires Valid()
      modifies this
      ensures Valid()
      ensures id !in old(rows) ==> err == Some("variable not exists") && rows == old(rows)
      ensures id in old(rows) && !deleteOk ==> err == Some("failed to delete variable") && rows == old(rows)
      ensures err.None? <==> id in old(rows) && deleteOk
      ensures err.None? ==> resp == Some("success") && rows == old(rows) - {id}
    {
      if id !in rows {
        return None, Some("variable not exists");
      }
      if !deleteOk {
        return None, Some("failed to delete variable");
      }
      rows := rows - {id};
      return Some("success"), None;
    }
  }
}
