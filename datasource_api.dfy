// The datasource endpoints: creating or editing a datasource record and deleting one. The
// table is a map from record ID to row; the declared parameters come from the datasource
// registry, and responses carry the message key that the translation layer turns into text.
module DatasourceApi {
  import opened Wrappers
  import opened Registry
  import opened ApiParams

  /** A stored datasource: its name, its registered type and its connection parameters. */
  datatype DataSourceRow = DataSourceRow(id: string, name: string, typ: string, data: seq<KeyValue>)

  /** The request body; `edit` is the string flag the client sends ("true" means edit). */
  datatype DataSourceRequest = DataSourceRequest(edit: string, id: string, name: string, typ: string, data: seq<KeyValue>)

  /** Every row is stored under its own, non-empty ID. */
  predicate WellKeyed(rows: map<string, DataSourceRow>)
  {
    forall k :: k in rows ==> k != "" && rows[k].id == k
  }

  /** No two rows share a name. */
  predicate NamesUnique(rows: map<string, DataSourceRow>)
  {
    forall a, b :: a in rows && b in rows && rows[a].name == rows[b].name ==> a == b
  }

  /** Some row other than `self` already carries the name. */
  predicate NameTaken(rows: map<string, DataSourceRow>, name: string, self: string)
  {
    exists k :: k in rows && rows[k].name == name && k != self
  }

  /** The ID a request may keep its name against: its own when editing, none when creating. */
  function SelfId(req: DataSourceRequest): string
  {
    if req.edit == "true" then req.id else ""
  }

  /** Creating under the name of any stored datasource is refused. */
  lemma CreateClashes(rows: map<string, DataSourceRow>, k: string, req: DataSourceRequest)
    requires WellKeyed(rows) && k in rows
    requires req.edit != "true" && req.name == rows[k].name
    ensures NameTaken(rows, req.name, SelfId(req))
  {
    assert rows[k].name == req.name && k != "";
  }

  /** Editing a datasource without renaming it never clashes with itself. */
  lemma EditKeepsOwnName(rows: map<string, DataSourceRow>, req: DataSourceRequest)
    requires NamesUnique(rows) && req.id in rows
    requires req.edit == "true" && req.name == rows[req.id].name
    ensures !NameTaken(rows, req.name, SelfId(req))
  {
  }

  class DataSourceTable {
    var rows: map<string, DataSourceRow>

    predicate Valid()
      reads this
    {
      WellKeyed(rows) && NamesUnique(rows)
    }

    constructor()
      ensures Valid() && rows == map[]
    {
      rows := map[];
    }

    /** NewDataSource: the type must be registered, the name free (of other rows when
        editing), the declared parameters complete, and an edited record must exist; then the
        row under the request's ID (editing) or a fresh ID (creating) holds the submitted
        name, type and data. `saveOk` is whether the save succeeds. */
    method NewDataSource(reg: Factory, req: DataSourceRequest, newId: string, saveOk: bool)
      returns (resp: Option<string>, err: Option<string>)
      requires Valid()
      requires newId != "" && newId !in rows
      modifies this
      ensures Valid()
      ensures err.Some? ==> resp.None? && rows == old(rows)
      ensures reg.Create(DatasourceKind, req.typ).Err? ==> err == Some("invalid Datasource type")
      ensures (reg.Create(DatasourceKind, req.typ).Ok? && NameTaken(old(rows), req.name, SelfId(req))) ==>
        err == Some("datasource name already exist")
      ensures (reg.Create(DatasourceKind, req.typ).Ok? && !NameTaken(old(rows), req.name, SelfId(req))
               && !Complete(reg.Create(DatasourceKind, req.typ).value.params, req.data)) ==>
        err == Some("datasource params error")
      ensures (reg.Create(DatasourceKind, req.typ).Ok? && !NameTaken(old(rows), req.name, SelfId(req))
               && Complete(reg.Create(DatasourceKind, req.typ).value.params, req.data)
               && req.edit == "true" && req.id !in old(rows)) ==>
        err == Some("illegal command")
      ensures (reg.Create(DatasourceKind, req.typ).Ok? && !NameTaken(old(rows), req.name, SelfId(req))
               && Complete(reg.Create(DatasourceKind, req.typ).value.params, req.data)
               && (req.edit == "true" ==> req.id in old(rows)) && !saveOk) ==>
        err == Some("failed to save datasource")
      ensures err.None? <==>
        (reg.Create(DatasourceKind, req.typ).Ok? && !NameTaken(old(rows), req.name, SelfId(req))
         && Complete(reg.Create(DatasourceKind, req.typ).value.params, req.data)
         && (req.edit == "true" ==> req.id in old(rows)) && saveOk)
      ensures err.None? ==>
        var key := if req.edit == "true" then req.id else newId;
        resp == Some("success") && rows == old(rows)[key := DataSourceRow(key, req.name, req.typ, req.data)]
    {
      var store := reg.Create(DatasourceKind, req.typ);
      if store.Err? {
        return None, Some("invalid Datasource type");
      }
      if NameTaken(rows, req.name, SelfId(req)) {
        return None, Some("datasource name already exist");
      }
      var complete := CheckParams(store.value.params, req.data);
      if !complete {
        return None, Some("datasource params error");
      }
      var key := newId;
      if req.edit == "true" {
        if req.id !in rows {
          return None, Some("illegal command");
        }
        key := req.id;
      }
      if !saveOk {
        return None, Some("failed to save datasource");
      }
      rows := rows[key := DataSourceRow(key, req.name, req.typ, req.data)];
      return Some("success"), None;
    }

    /** DeleteDataSource: an unknown ID is refused; otherwise the row is removed.
        `deleteOk` is whether the delete succeeds. */
    method DeleteDataSource(id: string, deleteOk: bool) returns (resp: Option<string>, err: Option<string>)
      requires Valid()
      modifies this
      ensures Valid()
      ensures id !in old(rows) ==> err == Some("datasource handle not found") && rows == old(rows)
      ensures id in old(rows) && !deleteOk ==>
        err == Some("failed to delete datasource record") && rows == old(rows)
      ensures err.None? <==> id in old(rows) && deleteOk
      ensures err.None? ==> resp == Some("success") && rows == old(rows) - {id}
    {
      if id !in rows {
        return None, Some("datasource handle not found");
      }
      if !deleteOk {
        return None, Some("failed to delete datasource record");
      }
      rows := rows - {id};
      return Some("success"), None;
    }
  }
}
