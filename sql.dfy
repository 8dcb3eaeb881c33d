/** What the MySQL connectors share: column values and rows as the
    `DictCursor` returns them, statements, the replies of the database
    behind a connection, the settings a connection is opened with, and the
    errors a connector call ends in. The database and the driver are not
    modelled; they are given as functions. */
module Sql {
  import opened Wrappers
  import CivilTime
  import PyText

  /** A column value: `None`, an `int`, a `str` or a `datetime`. */
  datatype Value = Null | Int(i: int) | Text(s: string) | Timestamp(t: CivilTime.Instant)

  /** One row of a `DictCursor`: column name to value. */
  type Row = map<string, Value>

  /** The `args` of `cursor.execute(query, args)`: one value or a sequence. */
  datatype Params = One(v: Value) | Many(vs: seq<Value>)

  datatype Statement = Statement(sql: string, params: Option<Params>)

  /** What a cursor gets for a statement: the driver raises, or the statement
      runs and the cursor holds a result set (`None` when it has none). */
  datatype Reply = Raised(message: string) | Answered(rows: Option<seq<Row>>)

  /** Keyword arguments of `pymysql.connect`. */
  type Kwargs = map<string, Value>

  /** An open connection, known by the settings it was opened with. */
  datatype Connection = Connection(settings: Kwargs)

  /** The database behind a connection. */
  type Server = (Connection, Statement) -> Reply

  datatype ConnectReply = Connected | Refused(message: string)

  /** `pymysql.connect(**settings)`. */
  type Driver = Kwargs -> ConnectReply

  /** `os.environ` as the connector modules read it at import time. */
  type Environment = map<string, string>

  /** The exceptions a connector call or a repair job ends in. */
  datatype DbError =
    | MissingEnvironment
    | NotFound
    | NoAttribute(owner: string, name: string)
    | KeyError(key: string)
    | UnsupportedAdd(operand: string)
    | ConcatStr
    | DateOverflow
    | DriverError(message: string)

  /** `str(err)` for each exception: a `KeyError` shows its key quoted, a
      re-raised driver error its own message. */
  function Message(e: DbError): (r: string)
    ensures e.KeyError? ==> r == "'" + e.key + "'"
    ensures e.DriverError? ==> r == e.message
  {
    match e
    case MissingEnvironment => "Missing required environment variables"
    case NotFound => "not found"
    case NoAttribute(owner, name) => "'" + owner + "' object has no attribute '" + name + "'"
    case KeyError(key) => "'" + key + "'"
    case UnsupportedAdd(operand) =>
      "unsupported operand type(s) for +: '" + operand + "' and 'datetime.timedelta'"
    case ConcatStr => "can only concatenate str (not \"datetime.timedelta\") to str"
    case DateOverflow => "date value out of range"
    case DriverError(message) => message
  }

  /** `type(v).__name__`: the two operands `+ timedelta` rejects with a
      `TypeError` are told apart by name. */
  function TypeName(v: Value): (r: string)
    ensures r == "NoneType" <==> v.Null?
    ensures r == "int" <==> v.Int?
  {
    match v
    case Null => "NoneType"
    case Int(_) => "int"
    case Text(_) => "str"
    case Timestamp(_) => "datetime"
  }

  /** `str(v)`, which is also what `'{0}'.format(v)` writes. The text of an
      integer has no comma, newline or tab; the text of a `str` is the string
      itself, whatever it holds. */
  function Str(v: Value): (r: string)
    ensures v.Int? ==> ',' !in r && '\n' !in r && '\t' !in r
    ensures v.Text? ==> r == v.s
  {
    match v
    case Null => "None"
    case Int(i) => PyText.Decimal(i)
    case Text(s) => s
    case Timestamp(t) => CivilTime.Format(t)
  }

  /** `str` loses nothing for integers and timestamps: the text reads back
      as the same value. */
  lemma StrReadsBack(v: Value)
    ensures v.Int? ==> PyText.ReadDecimal(Str(v)) == v.i
    ensures v.Timestamp? ==> CivilTime.Parse(Str(v)) == Some(v.t)
  {
    match v
    case Int(i) => PyText.DecimalReadsBack(i);
    case Timestamp(t) => CivilTime.ParseFormat(t);
    case _ =>
  }

  // ----- connection settings -----

  /** The names of the five environment variables (and configuration keys)
      of one MySQL database. */
  datatype DbVars = DbVars(host: string, port: string, user: string, password: string, db: string)

  const CollabsVars := DbVars("COLLABS_SERVICE_MYSQL_HOST", "COLLABS_SERVICE_MYSQL_PORT",
                              "COLLABS_SERVICE_MYSQL_USER", "COLLABS_SERVICE_MYSQL_PASSWORD",
                              "COLLABS_DB_NAME")

  const PostVars := DbVars("POST_SERVICE_MYSQL_HOST", "POST_SERVICE_MYSQL_PORT",
                           "POST_SERVICE_MYSQL_USER", "POST_SERVICE_MYSQL_PASSWORD",
                           "POST_DB_NAME")

  /** `os.environ.get(name, None)`. */
  function EnvGet(env: Environment, name: string): Option<string> {
    if name in env then Some(env[name]) else None
  }

  /** Python truth of a `str` or `None`. */
  predicate Truthy(v: Option<string>) {
    v.Some? && v.value != ""
  }

  /** `env_vars_provided()`: host, user and password are set and non-empty;
      the port and the database name are not looked at. */
  function EnvVarsProvided(env: Environment, vars: DbVars): (r: bool)
    ensures r <==> && vars.host in env && env[vars.host] != ""
                   && vars.user in env && env[vars.user] != ""
                   && vars.password in env && env[vars.password] != ""
  {
    Truthy(EnvGet(env, vars.host)) && Truthy(EnvGet(env, vars.user))
      && Truthy(EnvGet(env, vars.password))
  }

  /** Neither the port nor the database name takes part in the check. */
  lemma EnvVarsIgnorePortAndDb(env: Environment, vars: DbVars, port: string, db: string)
    requires vars.port !in {vars.host, vars.user, vars.password}
    requires vars.db !in {vars.host, vars.user, vars.password}
    ensures EnvVarsProvided(env[vars.port := port][vars.db := db], vars) == EnvVarsProvided(env, vars)
  {
    var env' := env[vars.port := port][vars.db := db];
    assert EnvGet(env', vars.host) == EnvGet(env, vars.host);
    assert EnvGet(env', vars.user) == EnvGet(env, vars.user);
    assert EnvGet(env', vars.password) == EnvGet(env, vars.password);
  }

  function EnvValue(env: Environment, name: string): Value {
    if name in env then Text(env[name]) else Null
  }

  /** The module-level `DB_CONFIG`. */
  function EnvSettings(env: Environment, vars: DbVars): (r: Kwargs)
    ensures r.Keys == {"host", "user", "password", "db", "charset"}
    ensures r["host"] == EnvValue(env, vars.host) && r["user"] == EnvValue(env, vars.user)
    ensures r["password"] == EnvValue(env, vars.password) && r["db"] == EnvValue(env, vars.db)
    ensures r["charset"] == Text("utf8mb4")
  {
    map["host" := EnvValue(env, vars.host), "user" := EnvValue(env, vars.user),
        "password" := EnvValue(env, vars.password), "db" := EnvValue(env, vars.db),
        "charset" := Text("utf8mb4")]
  }

  /** The port variable is read but never reaches the settings: changing it
      changes nothing. */
  lemma EnvSettingsIgnorePort(env: Environment, vars: DbVars, port: string)
    requires vars.port !in {vars.host, vars.user, vars.password, vars.db}
    ensures EnvSettings(env[vars.port := port], vars) == EnvSettings(env, vars)
    ensures EnvVarsProvided(env[vars.port := port], vars) == EnvVarsProvided(env, vars)
  {
    var env' := env[vars.port := port];
    assert EnvValue(env', vars.host) == EnvValue(env, vars.host);
    assert EnvValue(env', vars.user) == EnvValue(env, vars.user);
    assert EnvValue(env', vars.password) == EnvValue(env, vars.password);
    assert EnvValue(env', vars.db) == EnvValue(env, vars.db);
  }

  /** `cnx_from_config(cfg)`: the four entries are read in the order host,
      user, password, database, and the first one missing raises `KeyError`. */
  function SettingsFromConfig(cfg: Kwargs, vars: DbVars): (r: Result<Kwargs, DbError>)
    ensures r.Success? <==> vars.host in cfg && vars.user in cfg && vars.password in cfg && vars.db in cfg
    ensures r.Failure? ==> r.error == KeyError(
      if vars.host !in cfg then vars.host
      else if vars.user !in cfg then vars.user
      else if vars.password !in cfg then vars.password
      else vars.db)
    ensures r.Success? ==> r.value.Keys == {"host", "user", "password", "db", "charset"}
    ensures r.Success? ==>
              && r.value["host"] == cfg[vars.host] && r.value["user"] == cfg[vars.user]
              && r.value["password"] == cfg[vars.password] && r.value["db"] == cfg[vars.db]
              && r.value["charset"] == Text("utf8mb4")
  {
    if vars.host !in cfg then Failure(KeyError(vars.host))
    else if vars.user !in cfg then Failure(KeyError(vars.user))
    else if vars.password !in cfg then Failure(KeyError(vars.password))
    else if vars.db !in cfg then Failure(KeyError(vars.db))
    else Success(map["host" := cfg[vars.host], "user" := cfg[vars.user],
                     "password" := cfg[vars.password], "db" := cfg[vars.db],
                     "charset" := Text("utf8mb4")])
  }

  /** How a `connect_*_db` call chose to connect: the settings handed to the
      driver, and whether the connection is stored in `self.cnx` (it is not
      where the code rebinds the local name `self`). */
  datatype Plan = Plan(settings: Kwargs, stores: bool)

  /** `pymysql.connect(**plan.settings)` once a plan is chosen. */
  function Establish(plan: Result<Plan, DbError>, driver: Driver): (r: Result<Connection, DbError>)
    ensures r.Success? <==> plan.Success? && driver(plan.value.settings).Connected?
    ensures r.Success? ==> r.value.settings == plan.value.settings
    ensures plan.Failure? ==> r == Failure(plan.error)
    ensures plan.Success? && driver(plan.value.settings).Refused? ==>
      r == Failure(DriverError(driver(plan.value.settings).message))
  {
    match plan
    case Failure(e) => Failure(e)
    case Success(p) =>
      match driver(p.settings)
      case Connected => Success(Connection(p.settings))
      case Refused(m) => Failure(DriverError(m))
  }

  /** The `cnx` field after a connect attempt that started from `before`. */
  function StoredAfter(plan: Result<Plan, DbError>, driver: Driver, before: Option<Connection>): (r: Option<Connection>)
    ensures r != before ==> plan.Success? && plan.value.stores && Establish(plan, driver).Success?
    ensures plan.Success? && plan.value.stores && Establish(plan, driver).Success? ==>
      r == Some(Connection(plan.value.settings))
  {
    if plan.Success? && plan.value.stores && Establish(plan, driver).Success?
    then Some(Establish(plan, driver).value)
    else before
  }

  // ----- cursors -----

  /** `with self.cnx.cursor() as cursor: cursor.execute(...); cursor.fetchall()`
      followed by the `if result is None: raise Exception('not found')` check.
      `owner` is the connector's class name, used when `cnx` was never set. */
  function FetchAll(cnx: Option<Connection>, owner: string, server: Server, stmt: Statement): (r: Result<seq<Row>, DbError>)
    ensures cnx.None? ==> r == Failure(NoAttribute(owner, "cnx"))
    ensures r == Failure(NotFound) <==> cnx.Some? && server(cnx.value, stmt) == Answered(None)
    ensures r.Success? <==> cnx.Some? && server(cnx.value, stmt).Answered? && server(cnx.value, stmt).rows.Some?
    ensures r.Success? ==> server(cnx.value, stmt).rows == Some(r.value)
    ensures cnx.Some? && server(cnx.value, stmt).Raised? ==> r == Failure(DriverError(server(cnx.value, stmt).message))
  {
    match cnx
    case None => Failure(NoAttribute(owner, "cnx"))
    case Some(c) =>
      match server(c, stmt)
      case Raised(m) => Failure(DriverError(m))
      case Answered(rows) => if rows.None? then Failure(NotFound) else Success(rows.value)
  }

  /** The same with `cursor.fetchone()`, which gives `None` when there is no
      result set or it has no rows. */
  function FetchOne(cnx: Option<Connection>, owner: string, server: Server, stmt: Statement): (r: Result<Row, DbError>)
    ensures cnx.None? ==> r == Failure(NoAttribute(owner, "cnx"))
    ensures r == Failure(NotFound) <==>
      cnx.Some? && server(cnx.value, stmt).Answered? && server(cnx.value, stmt).rows in {None, Some([])}
    ensures r.Success? ==>
              && server(cnx.value, stmt).Answered? && server(cnx.value, stmt).rows.Some?
              && |server(cnx.value, stmt).rows.value| > 0
              && r.value == server(cnx.value, stmt).rows.value[0]
    ensures cnx.Some? && server(cnx.value, stmt).Raised? ==> r == Failure(DriverError(server(cnx.value, stmt).message))
  {
    match cnx
    case None => Failure(NoAttribute(owner, "cnx"))
    case Some(c) =>
      match server(c, stmt)
      case Raised(m) => Failure(DriverError(m))
      case Answered(rows) =>
        if rows.None? || rows.value == [] then Failure(NotFound) else Success(rows.value[0])
  }

  /** `execute` never treats an empty row list as an error: it is returned. */
  lemma FetchAllEmptyIsResult(cnx: Connection, owner: string, server: Server, stmt: Statement)
    requires server(cnx, stmt) == Answered(Some([]))
    ensures FetchAll(Some(cnx), owner, server, stmt) == Success([])
    ensures FetchOne(Some(cnx), owner, server, stmt) == Failure(NotFound)
  {
  }
}
