// The Doris datasource: holds the connection settings the Doris sink reads, with the
// host always carrying an "http://" prefix.
module DorisDatasource {
  import opened Wrappers
  import opened Text
  import opened Values
  import DorisSink

  const Scheme: string := "http://"

  /** The host as Init stores it: "http://" in front unless it is there already. */
  function WithScheme(host: string): (h: string)
    ensures StartsWith(h, Scheme)
    ensures StartsWith(host, Scheme) ==> h == host
    ensures !StartsWith(host, Scheme) ==> h == Scheme + host
  {
    if StartsWith(host, Scheme) then host else Scheme + host
  }

  /** Prefixing twice is prefixing once, so Init with the same config stores the same host. */
  lemma WithSchemeIdempotent(host: string)
    ensures WithScheme(WithScheme(host)) == WithScheme(host)
  {
  }

  /** Any other scheme is kept behind the prefix: "https://x" becomes "http://https://x". */
  lemma OtherSchemeKept()
    ensures WithScheme("https://x") == "http://https://x"
  {
    assert !StartsWith("https://x", Scheme) by {
      assert "https://x"[..7] != Scheme by {
        assert "https://x"[4] == 's' && Scheme[4] == ':';
      }
    }
  }

  class DataSource {
    var host: string
    var port: string
    var user: string
    var password: string
    var database: string

    constructor()
      ensures host == "" && port == "" && user == "" && password == "" && database == ""
    {
      host, port, user, password, database := "", "", "", "", "";
    }

    /** Init copies the five settings (absent ones as "") and prefixes the host; it never fails. */
    method Init(config: map<string, string>) returns (err: Option<string>)
      modifies this
      ensures err.None?
      ensures host == WithScheme(Setting(config, "host"))
      ensures port == Setting(config, "port") && user == Setting(config, "user")
      ensures password == Setting(config, "password") && database == Setting(config, "database")
    {
      host := Setting(config, "host");
      port := Setting(config, "port");
      user := Setting(config, "user");
      password := Setting(config, "password");
      database := Setting(config, "database");
      if !StartsWith(host, Scheme) {
        host := Scheme + host;
      }
      return None;
    }

    /** Open hands out the settings as a string map with exactly the five keys. */
    function Open(): (m: map<string, string>)
      reads this
      ensures m.Keys == {"host", "port", "user", "password", "database"}
      ensures m["host"] == host && m["port"] == port && m["user"] == user
      ensures m["password"] == password && m["database"] == database
    {
      map["host" := host, "port" := port, "user" := user, "password" := password, "database" := database]
    }

    /** Close has nothing to release. */
    method Close() returns (err: Option<string>)
      ensures err.None?
    {
      return None;
    }
  }

  /** The Stream Load URL the sink builds from the settings of an initialised datasource
      starts with "http://". */
  lemma SinkUrlIsHttp(config: map<string, string>, table: string)
    ensures StartsWith(DorisSink.StreamLoadUrl(WithScheme(Setting(config, "host")), Setting(config, "port"),
                                              Setting(config, "database"), table), Scheme)
  {
    var h := WithScheme(Setting(config, "host"));
    var url := DorisSink.StreamLoadUrl(h, Setting(config, "port"), Setting(config, "database"), table);
    assert url == h + (":" + Setting(config, "port") + "/api/" + Setting(config, "database") + "/" + table + "/_stream_load");
    assert url[..|Scheme|] == h[..|Scheme|];
  }
}
