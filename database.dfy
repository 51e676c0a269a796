/** Connection set-up of the SQL Server explorer (mcp-server/src/database.py):
    the connection settings and the two connection strings built from them,
    the engine start-up with its bounded liveness probe, scoped sessions, and
    the report of the module-level connection test.

    The database, the SQLAlchemy engine and the clock are abstract: each
    liveness probe is given by its outcome, the creation of the engine and of
    the session factory by whether it raised, and `quote_plus` by a function. */
module DatabaseSetup {
  import opened Wrappers
  import opened Text

  // ---------------------------------------------------------------------------
  // Configuration and connection strings

  /** `DatabaseConfig`: each setting is an environment variable, absent as `None`;
      the port has a default. */
  datatype DatabaseConfig = DatabaseConfig(
    host: Option<string>,
    port: string,
    database: Option<string>,
    username: Option<string>,
    password: Option<string>)

  const DefaultPort: string := "1433"

  /** `os.getenv(name)`: the value of the variable, or `None`. */
  function GetEnv(env: map<string, string>, name: string): (v: Option<string>)
    ensures v.Some? <==> name in env
    ensures v.Some? ==> v.value == env[name]
  {
    if name in env then Some(env[name]) else None
  }

  /** `DatabaseConfig.__init__` over an environment given as a map. */
  function ConfigFromEnvironment(env: map<string, string>): (cfg: DatabaseConfig)
    ensures "MSSQL_PORT" !in env ==> cfg.port == DefaultPort
    ensures "MSSQL_PORT" in env ==> cfg.port == env["MSSQL_PORT"]
    ensures cfg.host.Some? <==> "MSSQL_HOST" in env
    ensures cfg.host.Some? ==> cfg.host.value == env["MSSQL_HOST"]
    ensures cfg.database.Some? <==> "MSSQL_DATABASE" in env
    ensures cfg.database.Some? ==> cfg.database.value == env["MSSQL_DATABASE"]
    ensures cfg.username.Some? <==> "MSSQL_USERNAME" in env
    ensures cfg.username.Some? ==> cfg.username.value == env["MSSQL_USERNAME"]
    ensures cfg.password.Some? <==> "MSSQL_PASSWORD" in env
    ensures cfg.password.Some? ==> cfg.password.value == env["MSSQL_PASSWORD"]
  {
    DatabaseConfig(
      GetEnv(env, "MSSQL_HOST"),
      if "MSSQL_PORT" in env then env["MSSQL_PORT"] else DefaultPort,
      GetEnv(env, "MSSQL_DATABASE"),
      GetEnv(env, "MSSQL_USERNAME"),
      GetEnv(env, "MSSQL_PASSWORD"))
  }

  /** How an f-string renders an optional value: a missing one prints as `None`. */
  function Render(v: Option<string>): string
  {
    match v
    case None => "None"
    case Some(s) => s
  }

  const OdbcDriver: string := "{ODBC Driver 18 for SQL Server}"

  /** `DatabaseConfig.connection_string`: the six fields, in order, each
      written `KEY=value;`. */
  function ConnectionString(cfg: DatabaseConfig): (cs: string)
    ensures cs == Serialize(Fields(cfg))
  {
    SerializeSix(Fields(cfg));
    FieldText(("DRIVER", OdbcDriver)) +
    FieldText(("SERVER", Render(cfg.host) + "," + cfg.port)) +
    FieldText(("DATABASE", Render(cfg.database))) +
    FieldText(("UID", Render(cfg.username))) +
    FieldText(("PWD", Render(cfg.password))) +
    FieldText(("TrustServerCertificate", "yes"))
  }

  /** The `KEY=value` fields the connection string is meant to carry, in order. */
  function Fields(cfg: DatabaseConfig): seq<(string, string)>
  {
    [ ("DRIVER", OdbcDriver),
      ("SERVER", Render(cfg.host) + "," + cfg.port),
      ("DATABASE", Render(cfg.database)),
      ("UID", Render(cfg.username)),
      ("PWD", Render(cfg.password)),
      ("TrustServerCertificate", "yes") ]
  }

  /** One field of a connection string as written: `KEY=value;`. */
  function FieldText(field: (string, string)): string
  {
    field.0 + "=" + field.1 + ";"
  }

  /** The fields written one after the other. */
  function Serialize(fields: seq<(string, string)>): string
  {
    if fields == [] then "" else FieldText(fields[0]) + Serialize(fields[1..])
  }

  /** A plain reader of connection strings: `;`-terminated fields, each split
      at its first `=`. Unlike an ODBC driver, it gives braces no meaning. */
  function ParseConnectionString(cs: string): seq<(string, string)>
  {
    var pieces := Split(cs, ';');
    var body := if pieces[|pieces| - 1] == [] then pieces[..|pieces| - 1] else pieces;
    seq(|body|, i requires 0 <= i < |body| => (TakeUntil(body[i], '='), DropThrough(body[i], '=')))
  }

  /** No setting contains the field terminator. */
  predicate SemicolonFree(cfg: DatabaseConfig)
  {
    && ';' !in Render(cfg.host) && ';' !in cfg.port && ';' !in Render(cfg.database)
    && ';' !in Render(cfg.username) && ';' !in Render(cfg.password)
  }

  /** Six fields written one after the other. */
  lemma SerializeSix(f: seq<(string, string)>)
    requires |f| == 6
    ensures Serialize(f) ==
      FieldText(f[0]) + FieldText(f[1]) + FieldText(f[2]) + FieldText(f[3]) + FieldText(f[4]) + FieldText(f[5])
  {
    assert Serialize(f[5..]) == FieldText(f[5]) by { assert f[5..][1..] == []; }
    assert Serialize(f[4..]) == FieldText(f[4]) + Serialize(f[5..]) by { assert f[4..][1..] == f[5..]; }
    assert Serialize(f[3..]) == FieldText(f[3]) + Serialize(f[4..]) by { assert f[3..][1..] == f[4..]; }
    assert Serialize(f[2..]) == FieldText(f[2]) + Serialize(f[3..]) by { assert f[2..][1..] == f[3..]; }
    assert Serialize(f[1..]) == FieldText(f[1]) + Serialize(f[2..]) by { assert f[1..][1..] == f[2..]; }
  }


  /** The two fields that do not depend on the settings. */
  lemma FixedFields()
    ensures FieldText(("DRIVER", OdbcDriver)) == "DRIVER={ODBC Driver 18 for SQL Server};"
    ensures FieldText(("TrustServerCertificate", "yes")) == "TrustServerCertificate=yes;"
  {
  }

  lemma Framed(head: string, mid: string, tail: string)
    ensures (head + mid + tail)[..|head|] == head
    ensures (head + mid + tail)[|head + mid + tail| - |tail|..] == tail
  {
  }

  /** The string starts with the driver field and ends with the
      certificate-trust field, whatever the settings. */
  lemma ConnectionStringText(cfg: DatabaseConfig)
    ensures var cs := ConnectionString(cfg); var head := "DRIVER={ODBC Driver 18 for SQL Server};";
      var tail := "TrustServerCertificate=yes;";
      && |cs| >= |head| + |tail|
      && cs[..|head|] == head
      && cs[|cs| - |tail|..] == tail
  {
    var head := "DRIVER={ODBC Driver 18 for SQL Server};";
    var tail := "TrustServerCertificate=yes;";
    var mid := FieldText(("SERVER", Render(cfg.host) + "," + cfg.port)) +
      FieldText(("DATABASE", Render(cfg.database))) + FieldText(("UID", Render(cfg.username))) +
      FieldText(("PWD", Render(cfg.password)));
    FixedFields();
    assert ConnectionString(cfg) == head + mid + tail;
    Framed(head, mid, tail);
  }

  /** Splitting written fields whose keys and values hold no `;` gives back
      the `KEY=value` pieces, then the empty rest after the last `;`. */
  lemma {:induction false} SplitSerialized(fields: seq<(string, string)>)
    requires forall i :: 0 <= i < |fields| ==> ';' !in fields[i].0 && ';' !in fields[i].1
    ensures Split(Serialize(fields), ';') ==
      seq(|fields|, i requires 0 <= i < |fields| => fields[i].0 + "=" + fields[i].1) + [""]
  {
    if fields != [] {
      var k, v := fields[0].0, fields[0].1;
      var rest := Serialize(fields[1..]);
      SplitSerialized(fields[1..]);
      assert Serialize(fields) == (k + "=" + v) + [';'] + rest;
      SplitPiece(k + "=" + v, ';', rest);
    }
  }

  /** Reading back written fields gives the fields, provided no key holds `=`
      or `;` and no value holds `;`. */
  lemma ParseSerialized(fields: seq<(string, string)>)
    requires forall i :: 0 <= i < |fields| ==> '=' !in fields[i].0 && ';' !in fields[i].0 && ';' !in fields[i].1
    ensures ParseConnectionString(Serialize(fields)) == fields
  {
    var cs := Serialize(fields);
    var pieces := seq(|fields|, i requires 0 <= i < |fields| => fields[i].0 + "=" + fields[i].1);
    SplitSerialized(fields);
    ParseTerminated(cs, pieces);
    var parsed := ParseConnectionString(cs);
    forall i | 0 <= i < |fields| ensures parsed[i] == fields[i] {
      assert pieces[i] == fields[i].0 + ['='] + fields[i].1;
      ScanPastPiece(fields[i].0, '=', fields[i].1);
    }
  }

  /** A string whose last field is terminated is read piece by piece. */
  lemma ParseTerminated(cs: string, pieces: seq<string>)
    requires Split(cs, ';') == pieces + [""]
    ensures |ParseConnectionString(cs)| == |pieces|
    ensures forall i :: 0 <= i < |pieces| ==>
      ParseConnectionString(cs)[i] == (TakeUntil(pieces[i], '='), DropThrough(pieces[i], '='))
  {
    assert (pieces + [""])[..|pieces|] == pieces;
  }

  /** Whatever string is read, no value read from it contains `;`. */
  lemma ParsedValuesSemicolonFree(cs: string)
    ensures forall i :: 0 <= i < |ParseConnectionString(cs)| ==> ';' !in ParseConnectionString(cs)[i].1
  {
    var pieces := Split(cs, ';');
    SplitPiecesFree(cs, ';');
    var body := if pieces[|pieces| - 1] == [] then pieces[..|pieces| - 1] else pieces;
    forall i | 0 <= i < |body| ensures ';' !in DropThrough(body[i], '=') {
      var x := body[i];
      assert ';' !in x;
      var r := DropThrough(x, '=');
      assert r == x[|x| - |r|..];
    }
  }

  /** A reader that splits at `;` and at the first `=` reads back exactly the
      six intended fields if and only if no setting contains `;`: values are
      spliced in unquoted, so a `;` in, say, the password ends that field early
      and starts another. */
  lemma ConnectionStringRoundTrip(cfg: DatabaseConfig)
    ensures ParseConnectionString(ConnectionString(cfg)) == Fields(cfg) <==> SemicolonFree(cfg)
  {
    var f := Fields(cfg);
    if SemicolonFree(cfg) {
      ParseSerialized(f);
    } else {
      var parsed := ParseConnectionString(ConnectionString(cfg));
      ParsedValuesSemicolonFree(ConnectionString(cfg));
      var i :=
        if ';' in Render(cfg.host) || ';' in cfg.port then 1
        else if ';' in Render(cfg.database) then 2
        else if ';' in Render(cfg.username) then 3
        else 4;
      assert ';' in f[i].1;
      if i < |parsed| {
        assert ';' !in parsed[i].1;
        assert parsed[i] != f[i];
      }
    }
  }

  const UrlPrefix: string := "mssql+pyodbc:///?odbc_connect="

  /** `DatabaseConfig.sqlalchemy_url`, with `quote_plus` given as `quote`:
      whatever the settings, the fixed prefix followed by the quoted
      connection string. */
  function SqlalchemyUrl(cfg: DatabaseConfig, quote: string -> string): (url: string)
    ensures |url| >= |UrlPrefix| && url[..|UrlPrefix|] == UrlPrefix
    ensures url[|UrlPrefix|..] == quote(ConnectionString(cfg))
  {
    UrlPrefix + quote(ConnectionString(cfg))
  }

  /** Undoing the quoting of the URL's tail gives back a connection string
      that reads back as the six fields. */
  lemma UrlCarriesConnectionString(cfg: DatabaseConfig, quote: string -> string, unquote: string -> string)
    requires unquote(quote(ConnectionString(cfg))) == ConnectionString(cfg)
    requires SemicolonFree(cfg)
    ensures ParseConnectionString(unquote(SqlalchemyUrl(cfg, quote)[|UrlPrefix|..])) == Fields(cfg)
  {
    ConnectionStringRoundTrip(cfg);
  }

  // ---------------------------------------------------------------------------
  // The start-up probe loop

  /** What one liveness probe (`SELECT 1` on a pooled connection) did. */
  datatype ProbeOutcome = Answered | ProbeRaised(message: string)

  /** What the start-up does, in order: a probe and its verdict, or a pause. */
  datatype StartupEvent = Probe(attempt: nat, ok: bool) | Sleep(seconds: nat)

  const MaxProbes: nat := 3
  const RetryDelaySeconds: nat := 5

  /** `Database.test_connection`: never raises; true exactly when the probe
      completed. */
  function TestConnection(o: ProbeOutcome): (ok: bool)
    ensures ok <==> !o.ProbeRaised?
  {
    match o
    case Answered => true
    case ProbeRaised(_) => false
  }

  /** The events of the probe loop from attempt `attempt` on. */
  function StartupLog(probe: nat -> ProbeOutcome, attempt: nat): seq<StartupEvent>
    decreases MaxProbes - attempt
  {
    if attempt >= MaxProbes then []
    else if TestConnection(probe(attempt)) then [Probe(attempt, true)]
    else [Probe(attempt, false), Sleep(RetryDelaySeconds)] + StartupLog(probe, attempt + 1)
  }

  /** The `for _ in range(3)` loop of `init_db`: probe, stop at the first
      success, otherwise pause and try again. */
  method ProbeLoop(probe: nat -> ProbeOutcome) returns (log: seq<StartupEvent>)
    ensures log == StartupLog(probe, 0)
  {
    log := [];
    var attempt := 0;
    while attempt < MaxProbes
      invariant 0 <= attempt <= MaxProbes
      invariant log + StartupLog(probe, attempt) == StartupLog(probe, 0)
    {
      StartupLogStep(probe, attempt, log);
      if TestConnection(probe(attempt)) {
        log := log + [Probe(attempt, true)];
        break;
      }
      log := log + [Probe(attempt, false), Sleep(RetryDelaySeconds)];
      attempt := attempt + 1;
    }
  }

  /** One turn of the probe loop, stated on the events still to come. */
  lemma StartupLogStep(probe: nat -> ProbeOutcome, attempt: nat, done: seq<StartupEvent>)
    requires attempt < MaxProbes
    ensures TestConnection(probe(attempt)) ==>
      done + StartupLog(probe, attempt) == done + [Probe(attempt, true)]
    ensures !TestConnection(probe(attempt)) ==>
      done + StartupLog(probe, attempt) ==
      (done + [Probe(attempt, false), Sleep(RetryDelaySeconds)]) + StartupLog(probe, attempt + 1)
  {
    if !TestConnection(probe(attempt)) {
      var rest := StartupLog(probe, attempt + 1);
      assert done + ([Probe(attempt, false), Sleep(RetryDelaySeconds)] + rest)
          == (done + [Probe(attempt, false), Sleep(RetryDelaySeconds)]) + rest;
    }
  }

  /** The first attempt, from `attempt` on, whose probe succeeds; `MaxProbes`
      if none does. */
  function FirstAnswered(probe: nat -> ProbeOutcome, attempt: nat): (k: nat)
    requires attempt <= MaxProbes
    ensures attempt <= k <= MaxProbes
    ensures k < MaxProbes ==> TestConnection(probe(k))
    ensures forall j :: attempt <= j < k ==> !TestConnection(probe(j))
    decreases MaxProbes - attempt
  {
    if attempt == MaxProbes then MaxProbes
    else if TestConnection(probe(attempt)) then attempt
    else FirstAnswered(probe, attempt + 1)
  }

  /** The exact shape of the start-up: every failed probe is followed by one
      pause, the loop stops right after the first successful probe, and there
      are never more than three probes. */
  lemma {:induction false} StartupLogShape(probe: nat -> ProbeOutcome, attempt: nat)
    requires attempt <= MaxProbes
    ensures var log := StartupLog(probe, attempt); var k := FirstAnswered(probe, attempt);
      && |log| == 2 * (k - attempt) + (if k < MaxProbes then 1 else 0)
      && (forall j :: attempt <= j < k ==>
            log[2 * (j - attempt)] == Probe(j, false) && log[2 * (j - attempt) + 1] == Sleep(RetryDelaySeconds))
      && (k < MaxProbes ==> log[2 * (k - attempt)] == Probe(k, true))
    decreases MaxProbes - attempt
  {
    if attempt < MaxProbes && !TestConnection(probe(attempt)) {
      StartupLogShape(probe, attempt + 1);
      var log := StartupLog(probe, attempt);
      var rest := StartupLog(probe, attempt + 1);
      assert log == [Probe(attempt, false), Sleep(RetryDelaySeconds)] + rest;
      forall j | attempt < j < FirstAnswered(probe, attempt)
        ensures log[2 * (j - attempt)] == Probe(j, false) && log[2 * (j - attempt) + 1] == Sleep(RetryDelaySeconds)
      {
        assert log[2 * (j - attempt)] == rest[2 * (j - attempt - 1)];
        assert log[2 * (j - attempt) + 1] == rest[2 * (j - attempt - 1) + 1];
      }
    }
  }

  function ProbeCount(log: seq<StartupEvent>): nat
  {
    if log == [] then 0 else ProbeCount(log[..|log| - 1]) + (if log[|log| - 1].Probe? then 1 else 0)
  }

  function FailedProbeCount(log: seq<StartupEvent>): nat
  {
    if log == [] then 0
    else FailedProbeCount(log[..|log| - 1]) + (if log[|log| - 1].Probe? && !log[|log| - 1].ok then 1 else 0)
  }

  function SleepCount(log: seq<StartupEvent>): nat
  {
    if log == [] then 0 else SleepCount(log[..|log| - 1]) + (if log[|log| - 1].Sleep? then 1 else 0)
  }

  lemma {:induction false} CountsOfConcat(a: seq<StartupEvent>, b: seq<StartupEvent>)
    ensures ProbeCount(a + b) == ProbeCount(a) + ProbeCount(b)
    ensures FailedProbeCount(a + b) == FailedProbeCount(a) + FailedProbeCount(b)
    ensures SleepCount(a + b) == SleepCount(a) + SleepCount(b)
  {
    if b != [] {
      assert (a + b)[..|a + b| - 1] == a + b[..|b| - 1];
      CountsOfConcat(a, b[..|b| - 1]);
    } else {
      assert a + b == a;
    }
  }

  /** Counting the events: at most three probes; as many pauses as failed
      probes; and when every probe fails, three probes and three pauses. */
  lemma {:induction false} StartupCounts(probe: nat -> ProbeOutcome, attempt: nat)
    requires attempt <= MaxProbes
    ensures var log := StartupLog(probe, attempt); var k := FirstAnswered(probe, attempt);
      && ProbeCount(log) == (if k < MaxProbes then k + 1 else k) - attempt
      && ProbeCount(log) <= MaxProbes - attempt
      && SleepCount(log) == FailedProbeCount(log) == k - attempt
    decreases MaxProbes - attempt
  {
    if attempt < MaxProbes {
      var log := StartupLog(probe, attempt);
      if TestConnection(probe(attempt)) {
        assert log == [Probe(attempt, true)];
        SingleProbeCounts(attempt);
      } else {
        var head: seq<StartupEvent> := [Probe(attempt, false), Sleep(RetryDelaySeconds)];
        var rest := StartupLog(probe, attempt + 1);
        FailedRoundCounts(attempt);
        assert log == head + rest;
        StartupCounts(probe, attempt + 1);
        CountsOfConcat(head, rest);
      }
    }
  }

  lemma SingleProbeCounts(attempt: nat)
    ensures var log := [Probe(attempt, true)];
      ProbeCount(log) == 1 && SleepCount(log) == 0 && FailedProbeCount(log) == 0
  {
    var log := [Probe(attempt, true)];
    assert log[..|log| - 1] == [];
  }

  lemma FailedRoundCounts(attempt: nat)
    ensures var head := [Probe(attempt, false), Sleep(RetryDelaySeconds)];
      ProbeCount(head) == 1 && SleepCount(head) == 1 && FailedProbeCount(head) == 1
  {
    var head := [Probe(attempt, false), Sleep(RetryDelaySeconds)];
    var first := head[..|head| - 1];
    assert first == [Probe(attempt, false)];
    assert first[..|first| - 1] == [];
    assert ProbeCount(first) == 1 && SleepCount(first) == 0 && FailedProbeCount(first) == 1;
    assert head[|head| - 1] == Sleep(RetryDelaySeconds);
  }

  // ---------------------------------------------------------------------------
  // The database object

  /** The engine built from the URL (pool settings are not modelled). */
  datatype Engine = Engine(url: string)

  /** `sessionmaker(autocommit=False, autoflush=False, bind=engine)`. */
  datatype SessionFactory = SessionFactory(bind: Engine)

  const FailurePrefix: string := "Database connection failed: "

  /** A session handed out by `get_session`. */
  class Session {
    var isOpen: bool

    constructor ()
      ensures isOpen
    {
      isOpen := true;
    }

    method Close()
      modifies this
      ensures !isOpen
    {
      isOpen := false;
    }
  }

  /** `Database`: the settings, the engine and the session factory, which
      `init_db` assigns in place. The events of the start-up probe are kept in
      a ghost log. */
  class Database {
    const config: DatabaseConfig
    var engine: Option<Engine>
    var sessionFactory: Option<SessionFactory>
    ghost var startupLog: seq<StartupEvent>

    /** `Database.__init__` up to the call of `init_db`. */
    constructor (config: DatabaseConfig)
      ensures this.config == config
      ensures engine == None && sessionFactory == None && startupLog == []
    {
      this.config := config;
      engine := None;
      sessionFactory := None;
      startupLog := [];
    }

    /** `Database.init_db`. `engineError` and `factoryError` say whether
        `create_engine` and `sessionmaker` raised, and with what text. Only
        those two are turned into a failure; probes that all fail are not. */
    method InitDb(quote: string -> string, engineError: Option<string>, factoryError: Option<string>,
                  probe: nat -> ProbeOutcome)
      returns (failure: Option<string>)
      modifies this
      ensures engineError.Some? ==>
        && failure == Some(FailurePrefix + engineError.value)
        && engine == old(engine) && sessionFactory == old(sessionFactory)
        && startupLog == old(startupLog)
      ensures engineError.None? ==> engine == Some(Engine(SqlalchemyUrl(config, quote)))
      ensures engineError.None? && factoryError.Some? ==>
        && failure == Some(FailurePrefix + factoryError.value)
        && sessionFactory == old(sessionFactory) && startupLog == old(startupLog)
      ensures engineError.None? && factoryError.None? ==>
        && failure == None
        && sessionFactory == Some(SessionFactory(Engine(SqlalchemyUrl(config, quote))))
        && startupLog == old(startupLog) + StartupLog(probe, 0)
    {
      if engineError.Some? {
        return Some(FailurePrefix + engineError.value);
      }
      engine := Some(Engine(SqlalchemyUrl(config, quote)));
      if factoryError.Some? {
        return Some(FailurePrefix + factoryError.value);
      }
      sessionFactory := Some(SessionFactory(engine.value));
      var log := ProbeLoop(probe);
      startupLog := startupLog + log;
      failure := None;
    }

    /** `Database.get_session`: a fresh session for the caller's block, closed
        however the block ends; an exception from the block (`work`) passes
        through. Without a session factory the call raises and no session is
        made. */
    method GetSession(work: Option<string>) returns (session: Session?, raised: Option<string>)
      ensures sessionFactory.None? ==> session == null && raised.Some?
      ensures sessionFactory.Some? ==> session != null && fresh(session) && !session.isOpen && raised == work
    {
      if sessionFactory.None? {
        return null, Some("'NoneType' object is not callable");
      }
      session := new Session();
      // the caller's block runs here, between the yield and the finally clause
      session.Close();
      raised := work;
    }
  }

  /** When the database never answers, the start-up makes three probes and
      pauses three times, the last pause after the last probe (`InitDb` still
      reports no failure). */
  lemma AllProbesFail(probe: nat -> ProbeOutcome)
    requires forall j :: 0 <= j < MaxProbes ==> probe(j).ProbeRaised?
    ensures var log := StartupLog(probe, 0);
      ProbeCount(log) == 3 && SleepCount(log) == 3 && FailedProbeCount(log) == 3
  {
    StartupCounts(probe, 0);
  }

  // ---------------------------------------------------------------------------
  // The module-level connection test

  /** The dictionary `test_db_connection` returns. */
  datatype ConnectionReport = ConnectionReport(status: string, message: string, version: Option<string>)

  /** `test_db_connection`: a direct ODBC round trip that reads `@@version`
      (`direct`: the version, or the text of what it raised), then a probe
      through the engine. Never raises. */
  function TestDbConnection(direct: Result<string, string>, pooled: ProbeOutcome): (report: ConnectionReport)
    ensures report.status == "success" <==> direct.Success? && pooled.Answered?
    ensures report.status == "success" ==>
      report.message == "Database connection successful" && report.version == Some(direct.value)
    ensures direct.Failure? ==> report == ConnectionReport("error", FailurePrefix + direct.error, None)
    ensures direct.Success? && pooled.ProbeRaised? ==>
      report == ConnectionReport("error", FailurePrefix + pooled.message, None)
  {
    match direct
    case Failure(e) => ConnectionReport("error", FailurePrefix + e, None)
    case Success(version) =>
      match pooled
      case ProbeRaised(e) => ConnectionReport("error", FailurePrefix + e, None)
      case Answered => ConnectionReport("success", "Database connection successful", Some(version))
  }
}
