/** `LinksConnector`: a session on the hyperlink Cassandra cluster and the
    insert of one link record. */
module Links {
  import opened Wrappers
  import opened Sql

  const Owner := "LinksConnector"

  const KeyspaceVar := "HYPERLINK_CASSANDRA_DB"
  const HostVar := "HYPERLINK_CASSANDRA_HOST"
  const PortVar := "HYPERLINK_CASSANDRA_PORT"
  const UserVar := "HYPERLINK_CASSANDRA_USER"
  const PasswordVar := "HYPERLINK_CASSANDRA_PASSWORD"

  /** The contact points of `DB_CONFIG['host']`, fixed in the code. */
  const ContactPoints := ["192.168.8.19", "192.168.8.41", "192.168.8.72"]

  /** The `cfg` object the connect method accepts as a keyword argument. */
  datatype LinksConfig = LinksConfig(host: string, port: string, db: string)

  /** Plain-text credentials for the cluster. */
  datatype Credentials = Credentials(username: Option<string>, password: Option<string>)

  /** What `Cluster(...)` and `cluster.connect(keyspace)` are given. */
  datatype ClusterSettings = ClusterSettings(
    contactPoints: seq<string>, port: Option<string>, auth: Option<Credentials>, keyspace: Option<string>)

  datatype Session = Session(settings: ClusterSettings)

  /** `Cluster(...).connect(keyspace)`. */
  type ClusterDriver = ClusterSettings -> ConnectReply

  /** The cluster behind a session: `session.execute(statement)`. */
  type CqlServer = (Session, Statement) -> Reply

  /** `env_vars_provided()`: host, user and password set and non-empty. */
  function EnvProvided(env: Environment): (r: bool)
    ensures r <==> && HostVar in env && env[HostVar] != ""
                   && UserVar in env && env[UserVar] != ""
                   && PasswordVar in env && env[PasswordVar] != ""
  {
    Truthy(EnvGet(env, HostVar)) && Truthy(EnvGet(env, UserVar)) && Truthy(EnvGet(env, PasswordVar))
  }

  /** Neither the port nor the keyspace takes part in the check. */
  lemma EnvProvidedIgnoresPortAndKeyspace(env: Environment, port: string, keyspace: string)
    ensures EnvProvided(env[PortVar := port][KeyspaceVar := keyspace]) == EnvProvided(env)
  {
    var env' := env[PortVar := port][KeyspaceVar := keyspace];
    assert EnvGet(env', HostVar) == EnvGet(env, HostVar);
    assert EnvGet(env', UserVar) == EnvGet(env, UserVar);
    assert EnvGet(env', PasswordVar) == EnvGet(env, PasswordVar);
  }

  /** What `connect_hyperlink_db(cfg=...)` hands to the cluster: from the
      environment when it is provided, with the fixed contact points and not
      the host variable; else from `cfg`, without credentials. */
  function ClusterPlan(cfg: Option<LinksConfig>, env: Environment): (r: Result<ClusterSettings, DbError>)
    ensures r.Failure? <==> !EnvProvided(env) && cfg.None?
    ensures r.Failure? ==> r.error == MissingEnvironment
    ensures EnvProvided(env) ==>
              && r.Success? && r.value.contactPoints == ContactPoints
              && r.value.port == EnvGet(env, PortVar) && r.value.keyspace == EnvGet(env, KeyspaceVar)
              && r.value.auth == Some(Credentials(EnvGet(env, UserVar), EnvGet(env, PasswordVar)))
    ensures !EnvProvided(env) && cfg.Some? ==>
              && r.Success? && r.value.contactPoints == [cfg.value.host]
              && r.value.port == Some(cfg.value.port) && r.value.keyspace == Some(cfg.value.db)
              && r.value.auth.None?
  {
    if EnvProvided(env) then
      Success(ClusterSettings(ContactPoints, EnvGet(env, PortVar),
                              Some(Credentials(EnvGet(env, UserVar), EnvGet(env, PasswordVar))),
                              EnvGet(env, KeyspaceVar)))
    else if cfg.Some? then
      Success(ClusterSettings([cfg.value.host], Some(cfg.value.port), None, Some(cfg.value.db)))
    else Failure(MissingEnvironment)
  }

  /** The value of the host variable is checked but not used: any other
      non-empty host gives the same cluster. */
  lemma HostVariableUnused(cfg: Option<LinksConfig>, env: Environment, host: string)
    requires EnvProvided(env) && host != ""
    ensures ClusterPlan(cfg, env[HostVar := host]) == ClusterPlan(cfg, env)
  {
    var env' := env[HostVar := host];
    assert EnvGet(env', PortVar) == EnvGet(env, PortVar);
    assert EnvGet(env', KeyspaceVar) == EnvGet(env, KeyspaceVar);
    assert EnvGet(env', UserVar) == EnvGet(env, UserVar);
    assert EnvGet(env', PasswordVar) == EnvGet(env, PasswordVar);
  }

  /** `"USE %s" % keyspace`: the keyspace is spliced into the text (a
      missing one as `None`) and nothing is bound. */
  function UseKeyspace(keyspace: Option<string>): (r: Statement)
    ensures r.params.None?
    ensures keyspace.Some? ==> r.sql == "USE " + keyspace.value
    ensures keyspace.None? ==> r.sql == "USE None"
  {
    Statement("USE " + (if keyspace.Some? then keyspace.value else "None"), None)
  }

  /** The result of `connect_hyperlink_db`: the session once `USE` has run. */
  function ConnectOutcome(cfg: Option<LinksConfig>, env: Environment, driver: ClusterDriver, server: CqlServer): (r: Result<Session, DbError>)
    ensures r.Success? <==>
              && ClusterPlan(cfg, env).Success? && driver(ClusterPlan(cfg, env).value).Connected?
              && server(Session(ClusterPlan(cfg, env).value), UseKeyspace(ClusterPlan(cfg, env).value.keyspace)).Answered?
    ensures r.Success? ==> r.value == Session(ClusterPlan(cfg, env).value)
    ensures ClusterPlan(cfg, env).Failure? ==> r == Failure(ClusterPlan(cfg, env).error)
    ensures ClusterPlan(cfg, env).Success? && driver(ClusterPlan(cfg, env).value).Refused? ==>
              r == Failure(DriverError(driver(ClusterPlan(cfg, env).value).message))
    ensures && ClusterPlan(cfg, env).Success? && driver(ClusterPlan(cfg, env).value).Connected?
            && server(Session(ClusterPlan(cfg, env).value), UseKeyspace(ClusterPlan(cfg, env).value.keyspace)).Raised? ==>
              r == Failure(DriverError(server(Session(ClusterPlan(cfg, env).value),
                                              UseKeyspace(ClusterPlan(cfg, env).value.keyspace)).message))
  {
    match ClusterPlan(cfg, env)
    case Failure(e) => Failure(e)
    case Success(settings) =>
      match driver(settings)
      case Refused(m) => Failure(DriverError(m))
      case Connected =>
        match server(Session(settings), UseKeyspace(settings.keyspace))
        case Raised(m) => Failure(DriverError(m))
        case Answered(_) => Success(Session(settings))
  }

  /** `self.session` after `connect_hyperlink_db`: it is assigned as soon as
      the cluster connects, before `USE` runs, so a failing `USE` leaves it
      set. */
  function SessionAfter(cfg: Option<LinksConfig>, env: Environment, driver: ClusterDriver, before: Option<Session>): (r: Option<Session>)
    ensures r != before ==> ClusterPlan(cfg, env).Success? && driver(ClusterPlan(cfg, env).value).Connected?
    ensures ClusterPlan(cfg, env).Success? && driver(ClusterPlan(cfg, env).value).Connected? ==>
      r == Some(Session(ClusterPlan(cfg, env).value))
  {
    if ClusterPlan(cfg, env).Success? && driver(ClusterPlan(cfg, env).value).Connected?
    then Some(Session(ClusterPlan(cfg, env).value))
    else before
  }

  /** The constructor passes no `cfg`, so without the environment variables
      a `LinksConnector` can never be built. */
  lemma ConstructionNeedsEnvironment(env: Environment, driver: ClusterDriver, server: CqlServer)
    requires !EnvProvided(env)
    ensures ConnectOutcome(None, env, driver, server) == Failure(MissingEnvironment)
  {
  }

  // ----- link records -----

  datatype Product = Product(id: Value, productIdV2: Value, name: Value, price: Value, sku: Value, productType: Value)
  datatype Publisher = Publisher(id: Value)

  /** A link record: `data` with its `item` and `publisher` parts. */
  datatype Link = Link(id: Value, url: Value, item: Product, publisher: Publisher, redirectUrl: Value, version: Value)

  /** The columns of the insert, in the order they are listed. */
  const Columns := ["id", "link_url", "product_id", "product_id_v2", "product_name", "product_price",
                    "product_sku", "product_type", "publisher_id", "redirect_url", "version"]

  const AddLinkSql :=
    "INSERT INTO links (id, link_url, product_id, product_id_v2, product_name, product_price, product_sku, "
    + "          product_type, publisher_id, redirect_url, version) "
    + "VALUES (%s, %s, %s, %s, %s, %s, %s, %s, %s, %s, %s);"

  /** The tuple `add_link` binds. */
  function LinkParams(link: Link): (r: seq<Value>)
    ensures |r| == |Columns| == 11
  {
    [link.id, link.url, link.item.id, link.item.productIdV2, link.item.name, link.item.price,
     link.item.sku, link.item.productType, link.publisher.id, link.redirectUrl, link.version]
  }

  /** Which part of a record each column of the `links` table holds. */
  function ColumnValue(link: Link, column: string): Option<Value> {
    if column == "id" then Some(link.id)
    else if column == "link_url" then Some(link.url)
    else if column == "product_id" then Some(link.item.id)
    else if column == "product_id_v2" then Some(link.item.productIdV2)
    else if column == "product_name" then Some(link.item.name)
    else if column == "product_price" then Some(link.item.price)
    else if column == "product_sku" then Some(link.item.sku)
    else if column == "product_type" then Some(link.item.productType)
    else if column == "publisher_id" then Some(link.publisher.id)
    else if column == "redirect_url" then Some(link.redirectUrl)
    else if column == "version" then Some(link.version)
    else None
  }

  /** The i-th bound value is what the i-th listed column should hold: the
      product fields come from `item` and the publisher id from `publisher`. */
  lemma LinkParamsMatchColumns(link: Link)
    ensures forall i :: 0 <= i < |Columns| ==> ColumnValue(link, Columns[i]) == Some(LinkParams(link)[i])
  {
    var p := LinkParams(link);
    forall i | 0 <= i < |Columns| ensures ColumnValue(link, Columns[i]) == Some(p[i]) {
      if i == 0 { assert Columns[i] == "id"; }
      else if i == 1 { assert Columns[i] == "link_url"; }
      else if i == 2 { assert Columns[i] == "product_id"; }
      else if i == 3 { assert Columns[i] == "product_id_v2"; }
      else if i == 4 { assert Columns[i] == "product_name"; }
      else if i == 5 { assert Columns[i] == "product_price"; }
      else if i == 6 { assert Columns[i] == "product_sku"; }
      else if i == 7 { assert Columns[i] == "product_type"; }
      else if i == 8 { assert Columns[i] == "publisher_id"; }
      else if i == 9 { assert Columns[i] == "redirect_url"; }
      else { assert Columns[i] == "version"; }
    }
  }

  /** The statement `add_link` sends: the insert text as written, with the
      eleven values bound in the order the columns are listed. */
  function AddLinkStatement(link: Link): (r: Statement)
    ensures r.sql == AddLinkSql
    ensures r.params.Some? && r.params.value.Many? && |r.params.value.vs| == |Columns|
    ensures forall i :: 0 <= i < |Columns| ==> ColumnValue(link, Columns[i]) == Some(r.params.value.vs[i])
  {
    LinkParamsMatchColumns(link);
    Statement(AddLinkSql, Some(Many(LinkParams(link))))
  }

  class LinksConnector {
    /** `self.session`; `None` while the attribute has never been assigned. */
    var session: Option<Session>

    constructor Unconnected()
      ensures session.None?
    {
      session := None;
    }

    /** `LinksConnector()`: connects with no `cfg`. */
    static method Open(env: Environment, driver: ClusterDriver, server: CqlServer) returns (r: Result<LinksConnector, DbError>)
      ensures r.Failure? <==> ConnectOutcome(None, env, driver, server).Failure?
      ensures r.Failure? ==> r.error == ConnectOutcome(None, env, driver, server).error
      ensures r.Success? ==> fresh(r.value) && r.value.session == Some(ConnectOutcome(None, env, driver, server).value)
    {
      var c := new LinksConnector.Unconnected();
      var connected := c.ConnectHyperlinkDb(None, env, driver, server);
      if connected.Failure? {
        return Failure(connected.error);
      }
      return Success(c);
    }

    /** `connect_hyperlink_db(cfg=cfg)`. */
    method ConnectHyperlinkDb(cfg: Option<LinksConfig>, env: Environment, driver: ClusterDriver, server: CqlServer)
      returns (r: Result<Session, DbError>)
      modifies this
      ensures r == ConnectOutcome(cfg, env, driver, server)
      ensures session == SessionAfter(cfg, env, driver, old(session))
    {
      var settings: ClusterSettings;
      if EnvProvided(env) {
        settings := ClusterSettings(ContactPoints, EnvGet(env, PortVar),
                                    Some(Credentials(EnvGet(env, UserVar), EnvGet(env, PasswordVar))),
                                    EnvGet(env, KeyspaceVar));
      } else if cfg.Some? {
        settings := ClusterSettings([cfg.value.host], Some(cfg.value.port), None, Some(cfg.value.db));
      } else {
        return Failure(MissingEnvironment);
      }
      var connected := driver(settings);
      if connected.Refused? {
        return Failure(DriverError(connected.message));
      }
      session := Some(Session(settings));
      var used := server(session.value, UseKeyspace(settings.keyspace));
      if used.Raised? {
        return Failure(DriverError(used.message));
      }
      r := Success(session.value);
    }

    /** `add_link(data)`: one insert binding the eleven values in column
        order; errors are re-raised. */
    method AddLink(server: CqlServer, link: Link) returns (r: Result<(), DbError>)
      ensures session.None? ==> r == Failure(NoAttribute(Owner, "session"))
      ensures session.Some? ==> r == match server(session.value, AddLinkStatement(link))
                                     case Raised(m) => Failure(DriverError(m))
                                     case Answered(_) => Success(())
    {
      if session.None? {
        return Failure(NoAttribute(Owner, "session"));
      }
      var reply := server(session.value, AddLinkStatement(link));
      if reply.Raised? {
        return Failure(DriverError(reply.message));
      }
      r := Success(());
    }
  }
}
