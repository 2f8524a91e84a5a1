// The SQL sink (mysql, postgre and sqlite): each batch becomes one multi-row INSERT
// executed in a transaction.
module SqlSink {
  import opened Wrappers
  import opened Text
  import opened Values

  /** What the datasource's Open answers: a *sql.DB (a handle number) or some other value,
      and what its Close answers. */
  datatype SqlDatasource = SqlDatasource(db: Option<nat>, closeErr: Option<string>)

  /** The database's answers to Begin, Exec (given the query and the arguments) and Commit;
      None is success. */
  datatype Database = Database(begin: Option<string>, exec: (string, seq<Value>) -> Option<string>, commit: Option<string>)

  /** The statement handed to tx.Exec. */
  datatype Statement = Statement(query: string, args: seq<Value>)

  /** A Close that panics on a nil datasource pointer, or its answer. */
  datatype CloseAnswer = Closed(err: Option<string>) | NilDereference

  function Quote(name: string): string
  {
    "`" + name + "`"
  }

  /** One "(?, ?, ...)" group with a placeholder per column. */
  function Group(width: nat): string
  {
    "(" + Join(Copies("?", width), ", ") + ")"
  }

  /** The INSERT for `rows` records into the given target columns: one group per record,
      the groups joined by ",". */
  function InsertQuery(table: string, targets: seq<string>, rows: nat): string
    requires rows >= 1
  {
    "INSERT INTO `" + table + "` (" + Join(seq(|targets|, i requires 0 <= i < |targets| => Quote(targets[i])), ", ")
    + ") VALUES " + Join(Copies(Group(|targets|), rows), ",")
  }

  /** The target columns in the order the mapping was visited. */
  function Targets(mapping: Mapping, order: seq<string>): (t: seq<string>)
    requires forall i :: 0 <= i < |order| ==> order[i] in mapping
    ensures |t| == |order| && forall i :: 0 <= i < |order| ==> t[i] == mapping[order[i]]
  {
    seq(|order|, i requires 0 <= i < |order| => mapping[order[i]])
  }

  /** A record's cell for a key, nil when the record lacks it. */
  function Lookup(r: Record, key: string): Value
  {
    if key in r then r[key] else Null
  }

  /** The arguments: record by record, one per key in visiting order. */
  function Args(records: seq<Record>, keys: seq<string>): seq<Value>
    decreases |records|
  {
    if |records| == 0 then []
    else Args(records[..|records| - 1], keys) + seq(|keys|, j requires 0 <= j < |keys| => Lookup(records[|records| - 1], keys[j]))
  }

  /** There are records x keys arguments; argument i * |keys| + j is record i's cell for key j. */
  lemma {:induction false} ArgsLayout(records: seq<Record>, keys: seq<string>)
    ensures |Args(records, keys)| == |records| * |keys|
    ensures forall i, j :: 0 <= i < |records| && 0 <= j < |keys| ==>
      Args(records, keys)[i * |keys| + j] == Lookup(records[i], keys[j])
    decreases |records|
  {
    if |records| > 0 {
      var n, w := |records| - 1, |keys|;
      var front := Args(records[..n], keys);
      var last := seq(w, j requires 0 <= j < w => Lookup(records[n], keys[j]));
      assert Args(records, keys) == front + last;
      ArgsLayout(records[..n], keys);
      RowOffset(n, w);
      forall i, j | 0 <= i < |records| && 0 <= j < w
        ensures Args(records, keys)[i * w + j] == Lookup(records[i], keys[j])
      {
        RowCell(front, last, n, w, i, j);
        if i < n {
          assert records[..n][i] == records[i];
        }
      }
    }
  }

  /** Cell (i, j) of n rows of width w followed by one more row. */
  lemma RowCell(front: seq<Value>, last: seq<Value>, n: nat, w: nat, i: nat, j: nat)
    requires |front| == n * w && |last| == w && i <= n && j < w
    ensures i * w + j < |front + last|
    ensures i < n ==> i * w + j < |front| && (front + last)[i * w + j] == front[i * w + j]
    ensures i == n ==> (front + last)[i * w + j] == last[j]
  {
    RowOffset(n, w);
    if i < n {
      EarlierRow(i, j, n, w);
    }
  }

  lemma RowOffset(n: nat, w: nat)
    ensures n * w + w == (n + 1) * w
  {
  }

  lemma EarlierRow(i: nat, j: nat, n: nat, w: nat)
    requires i < n && j < w
    ensures i * w + j < n * w
  {
    assert (i + 1) * w <= n * w;
  }

  /** The column and placeholder loop of Write and the query it assembles. */
  method BuildQuery(table: string, cm: Mapping, order: seq<string>, rows: nat) returns (query: string)
    requires rows >= 1
    requires forall i :: 0 <= i < |order| ==> order[i] in cm
    ensures query == InsertQuery(table, Targets(cm, order), rows)
  {
    var dbColumns: seq<string> := [];
    var placeholders: seq<string> := [];
    var i := 0;
    while i < |order|
      invariant 0 <= i <= |order|
      invariant dbColumns == seq(i, k requires 0 <= k < i => Quote(cm[order[k]]))
      invariant placeholders == Copies("?", i)
    {
      dbColumns := dbColumns + [Quote(cm[order[i]])];
      placeholders := placeholders + ["?"];
      assert Copies("?", i + 1) == Copies("?", i) + ["?"] by {
        CopiesSnoc("?", i);
      }
      i := i + 1;
    }
    var valuePlaceholderGroup := "(" + Join(placeholders, ", ") + ")";
    var allValuePlaceholders := Repeat(valuePlaceholderGroup + ",", rows - 1) + valuePlaceholderGroup;
    RepeatJoin(valuePlaceholderGroup, ",", rows);
    query := "INSERT INTO `" + table + "` (" + Join(dbColumns, ", ") + ") VALUES " + allValuePlaceholders;
    ghost var targets := Targets(cm, order);
    assert dbColumns == seq(|targets|, k requires 0 <= k < |targets| => Quote(targets[k]));
  }

  /** The argument loop of Write: record by record, the record's cell for each key. */
  method BuildArgs(records: seq<Record>, keys: seq<string>) returns (args: seq<Value>)
    ensures args == Args(records, keys)
  {
    args := [];
    var r := 0;
    while r < |records|
      invariant 0 <= r <= |records|
      invariant args == Args(records[..r], keys)
    {
      var row: seq<Value> := [];
      var j := 0;
      while j < |keys|
        invariant 0 <= j <= |keys|
        invariant row == seq(j, k requires 0 <= k < j => Lookup(records[r], keys[k]))
      {
        var key := keys[j];
        var val := if key in records[r] then records[r][key] else Null;
        row := row + [val];
        j := j + 1;
      }
      assert records[..r + 1][..r] == records[..r];
      args := args + row;
      r := r + 1;
    }
    assert records[..r] == records;
  }

  class Sink {
    var db: Option<nat>
    var table: string
    var columnMapping: Mapping
    var datasource: Option<SqlDatasource>

    constructor()
      ensures db.None? && table == "" && columnMapping == map[] && datasource.None?
    {
      db, table, columnMapping, datasource := None, "", map[], None;
    }

    /** Open checks, in this order, the column mapping, the datasource's handle, the table and
        the presence of a handle; what it stored before a failing check stays stored. */
    method Open(config: map<string, string>, mapping: Mapping, ds: Option<SqlDatasource>) returns (err: Option<string>)
      modifies this
      ensures |mapping| == 0 ==> (err == Some("sql sink: 'column_mapping' cannot be empty")
        && columnMapping == old(columnMapping) && db == old(db) && datasource == old(datasource) && table == old(table))
      ensures |mapping| > 0 ==> columnMapping == mapping
      ensures |mapping| > 0 && ds.Some? && ds.value.db.None? ==>
        err == Some("sql sink: failed to get database connection from datasource") && datasource == old(datasource)
      ensures |mapping| > 0 && ds.Some? && ds.value.db.Some? ==> db == ds.value.db && datasource == ds
      ensures |mapping| > 0 && ds.None? ==> db == old(db) && datasource == old(datasource)
      ensures |mapping| > 0 && (ds.None? || ds.value.db.Some?) ==> (
        if "table" !in config || config["table"] == "" then
          err == Some("sql sink: config is missing required key 'table'") && table == old(table)
        else if db.None? then
          err == Some("sql sink: database connection is not available") && table == config["table"]
        else
          err.None? && table == config["table"] && db.Some?)
    {
      if |mapping| == 0 {
        return Some("sql sink: 'column_mapping' cannot be empty");
      }
      columnMapping := mapping;
      if ds.Some? {
        if ds.value.db.Some? {
          db := ds.value.db;
        } else {
          return Some("sql sink: failed to get database connection from datasource");
        }
        datasource := ds;
      }
      if "table" in config && config["table"] != "" {
        table := config["table"];
      } else {
        return Some("sql sink: config is missing required key 'table'");
      }
      if db.None? {
        return Some("sql sink: database connection is not available");
      }
      return None;
    }

    /** Write runs one INSERT with a group per record inside a transaction; `order` is the
        order in which the column mapping is visited. */
    method Write(records: seq<Record>, order: seq<string>, database: Database) returns (executed: Option<Statement>, err: Option<string>)
      requires IsEnumeration(order, columnMapping.Keys)
      ensures |records| == 0 ==> executed.None? && err.None?
      ensures |records| > 0 && db.None? ==> executed.None? && err == Some("sql sink: database connection is not open")
      ensures |records| > 0 && db.Some? && database.begin.Some? ==>
        executed.None? && err == Some("sql sink: failed to begin transaction: " + database.begin.value)
      ensures |records| > 0 && db.Some? && database.begin.None? ==> (
        var stmt := Statement(InsertQuery(table, Targets(columnMapping, order), |records|), Args(records, order));
        executed == Some(stmt) &&
        err == (match database.exec(stmt.query, stmt.args)
                case Some(e) => Some("sql sink: failed to execute batch insert: " + e)
                case None => database.commit))
    {
      if |records| == 0 {
        return None, None;
      }
      if db.None? {
        return None, Some("sql sink: database connection is not open");
      }
      if database.begin.Some? {
        return None, Some("sql sink: failed to begin transaction: " + database.begin.value);
      }
      var query := BuildQuery(table, columnMapping, order, |records|);
      var args := BuildArgs(records, order);
      executed := Some(Statement(query, args));
      var execErr := database.exec(query, args);
      if execErr.Some? {
        return executed, Some("sql sink: failed to execute batch insert: " + execErr.value);
      }
      return executed, database.commit;
    }

    /** Close as written: it closes the stored datasource without checking that one was stored,
        so it dereferences nil when Open stopped before storing it. */
    method CloseAsWritten() returns (c: CloseAnswer)
      ensures datasource.None? ==> c == NilDereference
      ensures datasource.Some? ==> c == Closed(datasource.value.closeErr)
    {
      if datasource.None? {
        return NilDereference;
      }
      return Closed(datasource.value.closeErr);
    }

    /** Close with the missing check: nothing to close when no datasource was stored. */
    method Close() returns (err: Option<string>)
      ensures err == if datasource.Some? then datasource.value.closeErr else None
    {
      if datasource.None? {
        return None;
      }
      return datasource.value.closeErr;
    }
  }

  lemma {:induction false} CopiesSnoc(s: string, n: nat)
    ensures Copies(s, n + 1) == Copies(s, n) + [s]
    decreases n
  {
    if n > 0 {
      CopiesSnoc(s, n - 1);
    }
  }

  /** An empty column mapping makes Open fail before a datasource is stored; the engine then
      still closes the sink, and the Close as written dereferences nil. */
  method EmptyMappingThenClose(ds: SqlDatasource) returns (c: CloseAnswer, corrected: Option<string>)
    ensures c == NilDereference
    ensures corrected.None?
  {
    var sink := new Sink();
    var err := sink.Open(map["table" := "t"], map[], Some(ds));
    c := sink.CloseAsWritten();
    corrected := sink.Close();
  }

  /** The names the three SQL sinks register under, with their datasource names. */
  datatype SinkNames = SinkNames(
    mysqlName: string, mysqlDatasource: string,
    postgreName: string, postgreDatasource: string,
    sqliteName: string, sqliteDatasource: string)

  const DefaultNames: SinkNames := SinkNames("mysql", "mysql", "postgre", "postgre", "sqlite", "sqlite")

  /** SetCustomNamePostgre as written: it renames the postgre sink but stores the datasource
      name in the mysql sink's variable. */
  function SetCustomNamePostgreAsWritten(names: SinkNames, customName: string, customDatasource: string): (r: SinkNames)
    ensures r.postgreName == customName && r.mysqlDatasource == customDatasource
    ensures r.postgreDatasource == names.postgreDatasource
  {
    names.(postgreName := customName, mysqlDatasource := customDatasource)
  }

  /** SetCustomNamePostgre as intended: both postgre names change and nothing else. */
  function SetCustomNamePostgre(names: SinkNames, customName: string, customDatasource: string): (r: SinkNames)
    ensures r.postgreName == customName && r.postgreDatasource == customDatasource
    ensures r.(postgreName := names.postgreName, postgreDatasource := names.postgreDatasource) == names
  {
    names.(postgreName := customName, postgreDatasource := customDatasource)
  }

  /** Renaming the postgre datasource leaves the postgre sink on "postgre" and moves the mysql
      sink to the new datasource, where the intended setter does the opposite. */
  lemma PostgreDatasourceRename()
    ensures SetCustomNamePostgreAsWritten(DefaultNames, "pg", "pgds").postgreDatasource == "postgre"
    ensures SetCustomNamePostgreAsWritten(DefaultNames, "pg", "pgds").mysqlDatasource == "pgds"
    ensures SetCustomNamePostgre(DefaultNames, "pg", "pgds").postgreDatasource == "pgds"
    ensures SetCustomNamePostgre(DefaultNames, "pg", "pgds").mysqlDatasource == "mysql"
  {
  }
}
