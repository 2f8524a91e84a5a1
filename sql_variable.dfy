// The SQL variable (mysql, postgre, sqlite): the value of a `${name}` placeholder is the
// single result of a read-only query.
module SqlVariable {
  import opened Wrappers
  import opened Text
  import opened Values

  const DangerousKeywords: seq<string> := ["INSERT", "UPDATE", "DELETE", "DROP", "CREATE", "ALTER", "TRUNCATE", "EXEC"]

  /** The query as the validator reads it: trimmed and upper-cased. */
  function Normalized(query: string): string
  {
    ToUpper(TrimSpace(query))
  }

  /** validVariable: the query must start with SELECT and contain none of the dangerous
      keywords anywhere, even inside a longer word. */
  function ValidVariable(config: map<string, string>): (err: Option<string>)
    ensures var q := Normalized(Setting(config, "query"));
      (err.None? <==> StartsWith(q, "SELECT") && forall i :: 0 <= i < |DangerousKeywords| ==> !Contains(q, DangerousKeywords[i]))
    ensures err.Some? ==> err.value in {"variable Should Has SELECT Prefix", "variable Should Not Contains Dangerous Keywords"}
    ensures !StartsWith(Normalized(Setting(config, "query")), "SELECT") ==> err == Some("variable Should Has SELECT Prefix")
  {
    ValidQuery(Normalized(Setting(config, "query")))
  }

  /** The check on the normalized query. */
  function ValidQuery(q: string): (err: Option<string>)
    ensures err.None? <==> StartsWith(q, "SELECT") && forall i :: 0 <= i < |DangerousKeywords| ==> !Contains(q, DangerousKeywords[i])
    ensures !StartsWith(q, "SELECT") ==> err == Some("variable Should Has SELECT Prefix")
    ensures StartsWith(q, "SELECT") && err.Some? ==> err == Some("variable Should Not Contains Dangerous Keywords")
  {
    if !StartsWith(q, "SELECT") then Some("variable Should Has SELECT Prefix")
    else FirstDangerous(q, 0)
  }

  /** The keyword loop from keyword i on. */
  function FirstDangerous(q: string, i: nat): (err: Option<string>)
    requires i <= |DangerousKeywords|
    ensures err.None? <==> forall j :: i <= j < |DangerousKeywords| ==> !Contains(q, DangerousKeywords[j])
    ensures err.Some? ==> err.value == "variable Should Not Contains Dangerous Keywords"
    decreases |DangerousKeywords| - i
  {
    if i == |DangerousKeywords| then None
    else if Contains(q, DangerousKeywords[i]) then Some("variable Should Not Contains Dangerous Keywords")
    else FirstDangerous(q, i + 1)
  }

  /** The datasource as Get uses it: its database answers QueryRow(query).Scan with the
      text of the first column or an error, and Close answers with an error or None. */
  datatype Datasource = Datasource(scan: string -> Result<string>, closeErr: Option<string>)

  /** Get as written: when the query fails it answers with the result of closing the
      datasource, which is no error at all when the close succeeds. */
  function GetAsWritten(config: map<string, string>, ds: Datasource): (r: Result<string>)
    ensures "query" !in config ==> r == Err("variable query is required")
    ensures "query" in config && ValidVariable(config).Some? ==> r == Err(ValidVariable(config).value)
    ensures "query" in config && ValidVariable(config).None? && ds.scan(config["query"]).Err? ==>
      r == (if ds.closeErr.Some? then Err(ds.closeErr.value) else Ok(""))
    ensures "query" in config && ValidVariable(config).None? && ds.scan(config["query"]).Ok? ==>
      r == Ok(ds.scan(config["query"]).value)
  {
    if "query" !in config then Err("variable query is required")
    else match ValidVariable(config)
      case Some(e) => Err(e)
      case None =>
        match ds.scan(config["query"])
        case Ok(v) => Ok(v)
        case Err(_) => if ds.closeErr.Some? then Err(ds.closeErr.value) else Ok("")
  }

  /** Get as intended: a failed query is an error. The query is validated before the
      datasource is touched, so an invalid query never reaches the database. */
  function Get(config: map<string, string>, ds: Datasource): (r: Result<string>)
    ensures "query" !in config ==> r == Err("variable query is required")
    ensures "query" in config && ValidVariable(config).Some? ==> r == Err(ValidVariable(config).value)
    ensures r.Ok? <==> "query" in config && ValidVariable(config).None? && ds.scan(config["query"]).Ok?
    ensures r.Ok? ==> r.value == ds.scan(config["query"]).value
  {
    if "query" !in config then Err("variable query is required")
    else match ValidVariable(config)
      case Some(e) => Err(e)
      case None => ds.scan(config["query"])
  }

  /** A valid query whose scan fails ("sql: no rows in result set") and a datasource that
      closes cleanly: the code as written reports the empty text as the variable's value,
      where the intended Get reports the failure. */
  lemma FailedQueryLooksEmpty()
    ensures var config := map["query" := "SELECT 1"];
      var ds := Datasource((q: string) => Err("sql: no rows in result set"), None);
      GetAsWritten(config, ds) == Ok("") && Get(config, ds) == Err("sql: no rows in result set")
  {
    var config := map["query" := "SELECT 1"];
    SelectOneAccepted();
  }

  lemma SelectOneAccepted()
    ensures ValidVariable(map["query" := "SELECT 1"]).None?
  {
    assert Setting(map["query" := "SELECT 1"], "query") == "SELECT 1";
    NormalizedSelectOne();
    SelectOneValid();
  }

  lemma NormalizedSelectOne()
    ensures Normalized("SELECT 1") == "SELECT 1"
  {
    var q := "SELECT 1";
    assert q[0] == 'S' && q[7] == '1';
    NormalizedFixed(q);
  }

  /** An upper-case text with no space at either end is its own normal form. */
  lemma NormalizedFixed(q: string)
    requires |q| > 0 && !IsSpace(q[0]) && !IsSpace(q[|q| - 1])
    requires forall i :: 0 <= i < |q| ==> !('a' <= q[i] <= 'z')
    ensures Normalized(q) == q
  {
    Untrimmed(q);
    UpperUnchanged(q);
  }

  lemma SelectOneValid()
    ensures ValidQuery("SELECT 1").None?
  {
    var q := "SELECT 1";
    SelectPrefix();
    forall i | 0 <= i < |DangerousKeywords|
      ensures !Contains(q, DangerousKeywords[i])
    {
      SelectOneClean(DangerousKeywords[i]);
    }
  }

  lemma SelectPrefix()
    ensures StartsWith("SELECT 1", "SELECT")
  {
    var q := "SELECT 1";
    assert q[0] == 'S' && q[1] == 'E' && q[2] == 'L' && q[3] == 'E' && q[4] == 'C' && q[5] == 'T';
    assert q[..6] == "SELECT";
  }

  /** Every character of a contained word is a character of the text. */
  lemma ContainedChar(s: string, w: string, c: char)
    requires Contains(s, w) && c in w
    ensures c in s
  {
    ContainsWitness(s, w);
    var i: nat :| At(s, w, i);
    var k :| 0 <= k < |w| && w[k] == c;
    assert s[i + k] == s[i..i + |w|][k];
  }

  /** "SELECT 1" holds no dangerous keyword: each has a letter "SELECT 1" lacks. */
  lemma SelectOneClean(w: string)
    requires w in DangerousKeywords
    ensures !Contains("SELECT 1", w)
  {
    var q := "SELECT 1";
    var c := if w == "INSERT" then 'I' else if w == "UPDATE" then 'U' else if w == "DELETE" then 'D'
      else if w == "DROP" then 'D' else if w == "CREATE" then 'R' else if w == "ALTER" then 'A'
      else if w == "TRUNCATE" then 'R' else 'X';
    assert c in w && c !in q;
    if Contains(q, w) {
      ContainedChar(q, w, c);
      assert false;
    }
  }

  /** A text without lower-case ASCII letters is its own upper case. */
  lemma UpperUnchanged(s: string)
    requires forall i :: 0 <= i < |s| ==> !('a' <= s[i] <= 'z')
    ensures ToUpper(s) == s
  {
  }

  /** A text with no space at either end is its own TrimSpace. */
  lemma Untrimmed(q: string)
    requires |q| > 0 && !IsSpace(q[0]) && !IsSpace(q[|q| - 1])
    ensures TrimSpace(q) == q
  {
  }

  /** The dangerous keywords count anywhere, even inside a column name, whatever the case. */
  lemma UpdatedAtRejected()
    ensures ValidVariable(map["query" := "select updated_at"]) == Some("variable Should Not Contains Dangerous Keywords")
  {
    var q := "select updated_at";
    assert Setting(map["query" := q], "query") == q;
    assert q[0] == 's' && q[|q| - 1] == 't';
    Untrimmed(q);
    UpperSelect(q);
    UpperUpdate(q);
    KeywordRejected(Normalized(q), 1);
  }

  /** A SELECT query holding any dangerous keyword is refused for that reason. */
  lemma KeywordRejected(u: string, k: nat)
    requires StartsWith(u, "SELECT") && k < |DangerousKeywords| && Contains(u, DangerousKeywords[k])
    ensures ValidQuery(u) == Some("variable Should Not Contains Dangerous Keywords")
  {
  }

  lemma UpperSelect(q: string)
    requires q == "select updated_at"
    ensures StartsWith(ToUpper(q), "SELECT")
  {
    var u := ToUpper(q);
    assert u[0] == 'S' && u[1] == 'E' && u[2] == 'L' && u[3] == 'E' && u[4] == 'C' && u[5] == 'T';
    assert u[..6] == "SELECT";
  }

  lemma UpperUpdate(q: string)
    requires q == "select updated_at"
    ensures Contains(ToUpper(q), "UPDATE")
  {
    var u := ToUpper(q);
    assert u[7] == 'U' && u[8] == 'P' && u[9] == 'D' && u[10] == 'A' && u[11] == 'T' && u[12] == 'E';
    assert u[7..13] == "UPDATE";
    ContainsAt(u, "UPDATE", 7);
  }
}
