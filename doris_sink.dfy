// The Doris sink: every batch becomes one JSON array of row objects sent to Doris's
// Stream Load endpoint with an HTTP PUT.
module DorisSink {
  import opened Wrappers
  import opened Values

  /** A row object for Doris: column name -> value, nil as Null. */
  type RowObject = map<string, Value>

  /** The PUT request Write sends. */
  datatype Request = Request(verb: string, url: string, body: string, user: string, password: string,
                             headers: map<string, string>)

  datatype Response = Response(status: int, body: string)

  /** The outside world Write talks to: json.Marshal of the rows, http.NewRequest's check of
      the URL, the round trip, and json.Unmarshal of the response's Status field. */
  datatype Http = Http(marshal: seq<RowObject> -> Result<string>, checkUrl: string -> Option<string>,
                       send: Request -> Result<Response>, status: string -> Result<string>)

  /** What the datasource's Open answers: a string map of connection settings, or something else. */
  datatype DatasourceAnswer = Settings(m: map<string, string>) | OtherValue

  /** The Stream Load URL. */
  function StreamLoadUrl(host: string, port: string, database: string, table: string): string
  {
    host + ":" + port + "/api/" + database + "/" + table + "/_stream_load"
  }

  /** A record's value for a key, nil when absent or nil. */
  function Cell(r: Record, key: string): (v: Value)
    ensures key !in r ==> v == Null
    ensures key in r ==> v == r[key]
  {
    if key !in r || r[key] == Null then Null else r[key]
  }

  /** The row object for a record: the mapping visited in `order`, each source key's value
      stored under its column, a later key overwriting an earlier one with the same column. */
  function Row(r: Record, mapping: Mapping, order: seq<string>): RowObject
    requires forall i :: 0 <= i < |order| ==> order[i] in mapping
    decreases |order|
  {
    if |order| == 0 then map[]
    else Row(r, mapping, order[..|order| - 1])[mapping[order[|order| - 1]] := Cell(r, order[|order| - 1])]
  }

  /** The row object's keys are exactly the columns of the visited keys; a column fed by one
      key only holds that key's value. */
  lemma RowContents(r: Record, mapping: Mapping, order: seq<string>)
    requires forall i :: 0 <= i < |order| ==> order[i] in mapping
    ensures forall c :: c in Row(r, mapping, order) <==> exists i :: 0 <= i < |order| && mapping[order[i]] == c
    ensures forall j :: 0 <= j < |order| && (forall k :: j < k < |order| ==> mapping[order[k]] != mapping[order[j]]) ==>
      Row(r, mapping, order)[mapping[order[j]]] == Cell(r, order[j])
  {
    RowDomain(r, mapping, order);
    RowValues(r, mapping, order);
  }

  /** The row object's keys are the columns of the visited keys. */
  lemma {:induction false} RowDomain(r: Record, mapping: Mapping, order: seq<string>)
    requires forall i :: 0 <= i < |order| ==> order[i] in mapping
    ensures forall c :: c in Row(r, mapping, order) <==> exists i :: 0 <= i < |order| && mapping[order[i]] == c
    decreases |order|
  {
    if |order| > 0 {
      var n := |order| - 1;
      var front := order[..n];
      RowDomain(r, mapping, front);
      forall c
        ensures c in Row(r, mapping, order) <==> exists i :: 0 <= i < |order| && mapping[order[i]] == c
      {
        if c in Row(r, mapping, front) {
          var i :| 0 <= i < n && mapping[front[i]] == c;
          assert mapping[order[i]] == c;
        }
        if exists i :: 0 <= i < |order| && mapping[order[i]] == c {
          var i :| 0 <= i < |order| && mapping[order[i]] == c;
          if i < n {
            assert mapping[front[i]] == c;
          }
        }
      }
    }
  }

  /** A column fed by no later key holds the value of the key that fed it. */
  lemma {:induction false} RowValues(r: Record, mapping: Mapping, order: seq<string>)
    requires forall i :: 0 <= i < |order| ==> order[i] in mapping
    ensures forall j :: 0 <= j < |order| && (forall k :: j < k < |order| ==> mapping[order[k]] != mapping[order[j]]) ==>
      mapping[order[j]] in Row(r, mapping, order) && Row(r, mapping, order)[mapping[order[j]]] == Cell(r, order[j])
    decreases |order|
  {
    if |order| > 0 {
      var n := |order| - 1;
      var front := order[..n];
      RowValues(r, mapping, front);
      forall j | 0 <= j < |order| && (forall k :: j < k < |order| ==> mapping[order[k]] != mapping[order[j]])
        ensures mapping[order[j]] in Row(r, mapping, order) && Row(r, mapping, order)[mapping[order[j]]] == Cell(r, order[j])
      {
        if j < n {
          assert front[j] == order[j];
          assert forall k :: j < k < n ==> mapping[front[k]] != mapping[front[j]];
        }
      }
    }
  }

  /** When the mapping is visited in full, the row object's keys are the mapping's columns. */
  lemma RowKeys(r: Record, mapping: Mapping, order: seq<string>)
    requires IsEnumeration(order, mapping.Keys)
    ensures Row(r, mapping, order).Keys == mapping.Values
  {
    RowContents(r, mapping, order);
    forall c | c in mapping.Values
      ensures c in Row(r, mapping, order)
    {
      var k :| k in mapping && mapping[k] == c;
      var i :| 0 <= i < |order| && order[i] == k;
    }
  }

  /** Every order visits the keys of the mapping once each. */
  predicate Visits(orders: seq<seq<string>>, mapping: Mapping)
  {
    forall i :: 0 <= i < |orders| ==> IsEnumeration(orders[i], mapping.Keys)
  }

  /** One row object per record, in record order; record i's mapping is visited in orders[i]. */
  function Rows(records: seq<Record>, mapping: Mapping, orders: seq<seq<string>>): (rows: seq<RowObject>)
    requires |orders| == |records| && Visits(orders, mapping)
    ensures |rows| == |records|
    ensures forall i :: 0 <= i < |records| ==> rows[i] == Row(records[i], mapping, orders[i])
  {
    seq(|records|, i requires 0 <= i < |records| => Row(records[i], mapping, orders[i]))
  }

  /** The request headers; the label is the run ID and the time in microseconds. */
  function Headers(id: string, micros: int): map<string, string>
  {
    map["format" := "JSON", "Expect" := "100-continue", "strip_outer_array" := "TRUE",
        "label" := id + "_" + IntToDecimal(micros)]
  }

  class Sink {
    var url: string
    var user: string
    var password: string
    var columnMapping: Mapping
    var table: string

    constructor()
      ensures url == "" && user == "" && password == "" && columnMapping == map[] && table == ""
    {
      url, user, password, columnMapping, table := "", "", "", map[], "";
    }

    /** Open checks the mapping, then the table, then host, user, database and port from the
        datasource's settings (the password may be empty), and builds the Stream Load URL. */
    method Open(config: map<string, string>, mapping: Mapping, ds: Option<DatasourceAnswer>) returns (err: Option<string>)
      modifies this
      ensures |mapping| == 0 ==> (err == Some("doris sink: 'column_mapping' cannot be empty")
        && columnMapping == old(columnMapping) && table == old(table) && url == old(url))
      ensures |mapping| > 0 ==> columnMapping == mapping
      ensures |mapping| > 0 ==> (
        var m := if ds.Some? && ds.value.Settings? then ds.value.m else map[];
        var host, port, user', password', database :=
          Setting(m, "host"), Setting(m, "port"), Setting(m, "user"), Setting(m, "password"), Setting(m, "database");
        if "table" !in config || config["table"] == "" then
          err == Some("doris sink: config is missing required key 'table'") && table == old(table) && url == old(url)
        else if host == "" then
          err == Some("doris sink: missing required configuration 'host' from datasource") && table == config["table"] && url == old(url)
        else if user' == "" then
          err == Some("doris sink: missing required configuration 'user' from datasource") && table == config["table"] && url == old(url)
        else if database == "" then
          err == Some("doris sink: missing required configuration 'database' from datasource") && table == config["table"] && url == old(url)
        else if port == "" then
          err == Some("doris sink: missing required configuration 'port' from datasource") && table == config["table"] && url == old(url)
        else
          err.None? && table == config["table"] && url == StreamLoadUrl(host, port, database, table)
          && user == user' && password == password')
    {
      if |mapping| == 0 {
        return Some("doris sink: 'column_mapping' cannot be empty");
      }
      columnMapping := mapping;
      var host, port, user', password', database := "", "", "", "", "";
      if ds.Some? && ds.value.Settings? {
        var m := ds.value.m;
        host, port, user', password', database :=
          Setting(m, "host"), Setting(m, "port"), Setting(m, "user"), Setting(m, "password"), Setting(m, "database");
      }
      if "table" in config && config["table"] != "" {
        table := config["table"];
      } else {
        return Some("doris sink: config is missing required key 'table'");
      }
      if host == "" {
        return Some("doris sink: missing required configuration 'host' from datasource");
      }
      if user' == "" {
        return Some("doris sink: missing required configuration 'user' from datasource");
      }
      if database == "" {
        return Some("doris sink: missing required configuration 'database' from datasource");
      }
      if port == "" {
        return Some("doris sink: missing required configuration 'port' from datasource");
      }
      url := StreamLoadUrl(host, port, database, table);
      user := user';
      password := password';
      return None;
    }

    /** Write sends the batch as one array of row objects and checks Doris's answer; `orders`
        holds, for each record, the order the mapping is visited in (Go ranges the map afresh
        for every record) and `micros` is the clock reading for the label. */
    method Write(id: string, records: seq<Record>, orders: seq<seq<string>>, http: Http, micros: int)
      returns (sent: Option<Request>, err: Option<string>)
      requires |orders| == |records| && Visits(orders, columnMapping)
      ensures |records| == 0 ==> sent.None? && err.None?
      ensures |records| > 0 ==> (
        var rows := Rows(records, columnMapping, orders);
        match http.marshal(rows)
        case Err(e) => sent.None? && err == Some("failed to marshal data to JSON: " + e)
        case Ok(body) =>
          if http.checkUrl(url).Some? then
            sent.None? && err == Some("failed to create request: " + http.checkUrl(url).value)
          else
            var req := Request("PUT", url, body, user, password, Headers(id, micros));
            sent == Some(req) && err == Answer(http.send(req), http))
    {
      if |records| == 0 {
        return None, None;
      }
      var data: seq<RowObject> := [];
      var i := 0;
      while i < |records|
        invariant 0 <= i <= |records|
        invariant data == Rows(records[..i], columnMapping, orders[..i])
      {
        var row := BuildRow(records[i], columnMapping, orders[i]);
        data := data + [row];
        i := i + 1;
      }
      assert records[..i] == records && orders[..i] == orders;
      var jsonData := http.marshal(data);
      if jsonData.Err? {
        return None, Some("failed to marshal data to JSON: " + jsonData.msg);
      }
      var bad := http.checkUrl(url);
      if bad.Some? {
        return None, Some("failed to create request: " + bad.value);
      }
      var req := Request("PUT", url, jsonData.value, user, password, Headers(id, micros));
      sent := Some(req);
      var resp := http.send(req);
      if resp.Err? {
        return sent, Some("failed to send stream load request: " + resp.msg);
      }
      if resp.value.status != 200 {
        return sent, Some("stream load failed with status " + IntToDecimal(resp.value.status) + ": " + resp.value.body);
      }
      var status := http.status(resp.value.body);
      if status.Err? {
        return sent, Some("failed to unmarshal stream load response: " + status.msg);
      }
      if status.value != "Success" {
        return sent, Some("stream load failed: " + resp.value.body);
      }
      return sent, None;
    }

    /** Close has nothing to release. */
    method Close() returns (err: Option<string>)
      ensures err.None?
    {
      return None;
    }
  }

  /** What Write makes of Doris's answer: only a 200 whose Status is "Success" is a success. */
  function Answer(resp: Result<Response>, http: Http): (err: Option<string>)
    ensures err.None? <==> resp.Ok? && resp.value.status == 200 && http.status(resp.value.body) == Ok("Success")
  {
    match resp
    case Err(e) => Some("failed to send stream load request: " + e)
    case Ok(r) =>
      if r.status != 200 then Some("stream load failed with status " + IntToDecimal(r.status) + ": " + r.body)
      else match http.status(r.body)
        case Err(e) => Some("failed to unmarshal stream load response: " + e)
        case Ok(s) => if s != "Success" then Some("stream load failed: " + r.body) else None
  }

  /** The inner loop of Write: one record's row object. */
  method BuildRow(r: Record, mapping: Mapping, order: seq<string>) returns (row: RowObject)
    requires forall i :: 0 <= i < |order| ==> order[i] in mapping
    ensures row == Row(r, mapping, order)
  {
    row := map[];
    var j := 0;
    while j < |order|
      invariant 0 <= j <= |order|
      invariant row == Row(r, mapping, order[..j])
    {
      assert order[..j + 1][..j] == order[..j];
      var recordKey := order[j];
      var dbCol := mapping[recordKey];
      if recordKey !in r || r[recordKey] == Null {
        row := row[dbCol := Null];
      } else {
        row := row[dbCol := r[recordKey]];
      }
      j := j + 1;
    }
    assert order[..j] == order;
  }
}
