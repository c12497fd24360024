/**
 * RDSToHikariDataSourceTransformer: reshapes an AWS RDS secret
 * ({engine, host, port, dbname, username, password}) into the properties of a
 * Hikari connection pool ({username, password, jdbcUrl}).
 */
module RdsTransformer {
  import opened Outcomes
  import opened Json

  /** The name the secrets module registers the transformer under. */
  const TransformerName: string := "rds-to-hikari-datasource"

  /** The warnings printed to stderr when the URL cannot be built. */
  datatype Warning = MissingEngine | MissingHost

  function WarningText(w: Warning): string {
    match w
    case MissingEngine => "AWS RDS secret must have 'engine' specified"
    case MissingHost => "AWS RDS secret must have 'host' specified"
  }

  /** ":" + port or "/" + dbname when the secret has that field, nothing otherwise. */
  function Segment(separator: string, f: map<string, Json>, key: string): string {
    if key in f then separator + AsText(f[key]) else ""
  }

  function UrlBase(f: map<string, Json>): string
    requires "engine" in f && "host" in f
  {
    "jdbc:" + AsText(f["engine"]) + "://" + AsText(f["host"])
  }

  /** The URL jdbc:{engine}://{host}[:{port}][/{dbname}], when engine and host are both given. */
  function JdbcUrl(secret: Json): Option<string> {
    var f := Fields(secret);
    if "engine" in f && "host" in f then
      Some(UrlBase(f) + Segment(":", f, "port") + Segment("/", f, "dbname"))
    else None
  }

  /** The warning emitted on the way: 'engine' is checked first, 'host' only when 'engine' is there. */
  function UrlWarning(secret: Json): Option<Warning> {
    var f := Fields(secret);
    if "engine" !in f then Some(MissingEngine)
    else if "host" !in f then Some(MissingHost)
    else None
  }

  /** The pool configuration: username and password as text when given, and the URL when it can be built. */
  function HikariConfig(secret: Json): Json {
    var f := Fields(secret);
    var copied := CopiedCredentials(f);
    var url := JdbcUrl(secret);
    JObject(if url.Some? then copied["jdbcUrl" := JString(url.value)] else copied)
  }

  /** username and password, as text, for those of them the secret has. */
  function CopiedCredentials(f: map<string, Json>): (c: map<string, Json>)
    ensures forall k :: k in c <==> k in f && (k == "username" || k == "password")
    ensures forall k :: k in c ==> c[k] == JString(AsText(f[k]))
  {
    map k | k in f && k in {"username", "password"} :: JString(AsText(f[k]))
  }

  /** toJdbcUrl, appending to the URL text step by step. */
  method ToJdbcUrl(secret: Json) returns (url: Option<string>, warning: Option<Warning>)
    ensures url == JdbcUrl(secret)
    ensures warning == UrlWarning(secret)
    ensures url.Some? <==> warning.None?
  {
    var f := Fields(secret);
    if "engine" !in f {
      return None, Some(MissingEngine);
    }
    if "host" !in f {
      return None, Some(MissingHost);
    }
    var builder := "jdbc:";
    builder := builder + AsText(f["engine"]);
    builder := builder + "://";
    builder := builder + AsText(f["host"]);
    assert builder == UrlBase(f);
    if "port" in f {
      builder := builder + ":" + AsText(f["port"]);
    }
    assert builder == UrlBase(f) + Segment(":", f, "port");
    if "dbname" in f {
      builder := builder + "/" + AsText(f["dbname"]);
    }
    assert builder == UrlBase(f) + Segment(":", f, "port") + Segment("/", f, "dbname");
    return Some(builder), None;
  }

  /** fromSecret: fills a fresh object with conditional puts; the input is only read. */
  method FromSecret(rdsSecret: Json) returns (hikariConfig: Json, warnings: seq<Warning>)
    ensures hikariConfig == HikariConfig(rdsSecret)
    ensures warnings == (match UrlWarning(rdsSecret) case Some(w) => [w] case None => [])
  {
    var f := Fields(rdsSecret);
    var out: map<string, Json> := map[];
    if "username" in f {
      out := out["username" := JString(AsText(f["username"]))];
    }
    if "password" in f {
      out := out["password" := JString(AsText(f["password"]))];
    }
    assert out == CopiedCredentials(f);
    var url, warning := ToJdbcUrl(rdsSecret);
    if url.Some? {
      out := out["jdbcUrl" := JString(url.value)];
    }
    hikariConfig := JObject(out);
    warnings := if warning.Some? then [warning.value] else [];
  }

  /** username and password are copied as text exactly when the secret has them. */
  lemma HikariCopiesCredentials(secret: Json, key: string)
    requires key == "username" || key == "password"
    ensures var out := Fields(HikariConfig(secret));
      (key in out <==> key in Fields(secret)) &&
      (key in out ==> out[key] == JString(AsText(Fields(secret)[key])))
  {
  }

  /** jdbcUrl is present exactly when engine and host are, and nothing but the three keys is produced. */
  lemma HikariKeys(secret: Json)
    ensures var f := Fields(secret);
      var out := Fields(HikariConfig(secret));
      && HikariConfig(secret).JObject?
      && out.Keys <= {"username", "password", "jdbcUrl"}
      && ("jdbcUrl" in out <==> "engine" in f && "host" in f)
      && ("jdbcUrl" in out ==> out["jdbcUrl"] == JString(JdbcUrl(secret).value))
  {
  }

  /**
   * The shape of the URL: it starts with jdbc:{engine}://{host}; the port segment comes right
   * after the host, the dbname segment ends the URL, and with neither the URL is just the base.
   */
  lemma {:induction false} JdbcUrlShape(secret: Json)
    requires JdbcUrl(secret).Some?
    ensures var f := Fields(secret);
      var u := JdbcUrl(secret).value;
      && "engine" in f && "host" in f
      && UrlBase(f) <= u
      && ("port" in f ==> UrlBase(f) + ":" + AsText(f["port"]) <= u)
      && ("dbname" in f ==> u[|u| - |"/" + AsText(f["dbname"])|..] == "/" + AsText(f["dbname"]))
      && ("port" !in f && "dbname" !in f ==> u == UrlBase(f))
      && |u| == |UrlBase(f)| + |Segment(":", f, "port")| + |Segment("/", f, "dbname")|
  {
    var f := Fields(secret);
    var b, ps, ds := UrlBase(f), Segment(":", f, "port"), Segment("/", f, "dbname");
    assert JdbcUrl(secret).value == b + ps + ds;
    ThreeParts(b, ps, ds);
    if "port" in f {
      assert b + ":" + AsText(f["port"]) == b + ps;
    }
    if "dbname" in f {
      assert "/" + AsText(f["dbname"]) == ds;
    }
  }

  /** Where the parts of a three-part text lie in it. */
  lemma ThreeParts(b: string, ps: string, ds: string)
    ensures b <= b + ps + ds && b + ps <= b + ps + ds
    ensures (b + ps + ds)[|b + ps + ds| - |ds|..] == ds
    ensures ps == [] && ds == [] ==> b + ps + ds == b
    ensures |b + ps + ds| == |b| + |ps| + |ds|
  {
    var u := b + ps + ds;
    assert u[..|b|] == b;
    assert u[..|b + ps|] == b + ps;
    assert u[|b + ps|..] == ds;
  }

  /** A missing engine warns about the engine only; a present engine with a missing host warns about the host. */
  lemma WarningOrder(secret: Json)
    ensures var f := Fields(secret);
      && ("engine" !in f ==> UrlWarning(secret) == Some(MissingEngine))
      && ("engine" in f && "host" !in f ==> UrlWarning(secret) == Some(MissingHost))
      && (UrlWarning(secret).None? <==> JdbcUrl(secret).Some?)
  {
  }

  /** The RDS secret of the transformer's integration test. */
  const ExampleRdsSecret: Json := JObject(map[
    "password" := JString("rds_password"), "username" := JString("rds_user"),
    "engine" := JString("fakedb"), "host" := JString("rdshost"),
    "port" := JString("7890"), "dbname" := JString("mydb")])

  /** The configuration the integration test expects from that secret. */
  lemma RdsExample()
    ensures HikariConfig(ExampleRdsSecret) == JObject(map[
      "username" := JString("rds_user"), "password" := JString("rds_password"),
      "jdbcUrl" := JString("jdbc:fakedb://rdshost:7890/mydb")])
  {
    RdsExampleUrl();
    RdsExampleCredentials();
  }

  /** The URL that secret gives. */
  lemma RdsExampleUrl()
    ensures JdbcUrl(ExampleRdsSecret) == Some("jdbc:fakedb://rdshost:7890/mydb")
  {
    var f := Fields(ExampleRdsSecret);
    assert UrlBase(f) == "jdbc:fakedb://rdshost";
    assert Segment(":", f, "port") == ":7890";
    assert Segment("/", f, "dbname") == "/mydb";
    assert "jdbc:fakedb://rdshost" + ":7890" + "/mydb" == "jdbc:fakedb://rdshost:7890/mydb";
  }

  /** The credentials copied from that secret. */
  lemma RdsExampleCredentials()
    ensures CopiedCredentials(Fields(ExampleRdsSecret))
            == map["username" := JString("rds_user"), "password" := JString("rds_password")]
  {
    var f := Fields(ExampleRdsSecret);
    assert f["username"] == JString("rds_user") && f["password"] == JString("rds_password");
  }
}
