/** `PostConnector` of the scripts package: the environment is tried before
    the configuration, and both paths keep their connection. */
module PyPosts {
  import opened Wrappers
  import opened Sql
  import Queries
  import SrcPosts

  const Owner := "PostConnector"

  /** What `connect_post_db(cfg)` hands to the driver: the environment's
      settings when host, user and password are set, else `cfg` unchanged;
      the connection is kept either way. */
  function ConnectPlan(cfg: Option<Kwargs>, env: Environment): (r: Result<Plan, DbError>)
    ensures r.Success? ==> r.value.stores
    ensures EnvVarsProvided(env, PostVars) ==> r == Success(Plan(EnvSettings(env, PostVars), true))
    ensures !EnvVarsProvided(env, PostVars) && cfg.Some? ==> r == Success(Plan(cfg.value, true))
    ensures r.Failure? <==> !EnvVarsProvided(env, PostVars) && cfg.None?
    ensures r.Failure? ==> r.error == MissingEnvironment
  {
    if EnvVarsProvided(env, PostVars) then Success(Plan(EnvSettings(env, PostVars), true))
    else if cfg.Some? then Success(Plan(cfg.value, true))
    else Failure(MissingEnvironment)
  }

  /** From the environment alone, this connector keeps the connection that
      the job's posts connector loses. */
  lemma KeepsWhatTheJobLoses(env: Environment, driver: Driver)
    requires EnvVarsProvided(env, PostVars)
    requires driver(EnvSettings(env, PostVars)).Connected?
    ensures StoredAfter(ConnectPlan(None, env), driver, None) == Some(Connection(EnvSettings(env, PostVars)))
    ensures StoredAfter(SrcPosts.ConnectPlan(None, env), driver, None) == None
  {
  }

  class PostConnector {
    /** `self.cnx`; `None` while the attribute has never been assigned. */
    var cnx: Option<Connection>

    constructor Unconnected()
      ensures cnx.None?
    {
      cnx := None;
    }

    /** `PostConnector(cfg)`: the constructor raises what the connect raises. */
    static method Open(cfg: Option<Kwargs>, env: Environment, driver: Driver) returns (r: Result<PostConnector, DbError>)
      ensures r.Failure? <==> Establish(ConnectPlan(cfg, env), driver).Failure?
      ensures r.Failure? ==> r.error == Establish(ConnectPlan(cfg, env), driver).error
      ensures r.Success? ==> fresh(r.value) && r.value.cnx == StoredAfter(ConnectPlan(cfg, env), driver, None)
    {
      var c := new PostConnector.Unconnected();
      var connected := c.ConnectPostDb(cfg, env, driver);
      if connected.Failure? {
        return Failure(connected.error);
      }
      return Success(c);
    }

    /** `connect_post_db(cfg)`. */
    method ConnectPostDb(cfg: Option<Kwargs>, env: Environment, driver: Driver) returns (r: Result<Connection, DbError>)
      modifies this
      ensures r == Establish(ConnectPlan(cfg, env), driver)
      ensures cnx == StoredAfter(ConnectPlan(cfg, env), driver, old(cnx))
    {
      if EnvVarsProvided(env, PostVars) {
        var settings := EnvSettings(env, PostVars);
        match driver(settings)
        case Refused(m) =>
          r := Failure(DriverError(m));
        case Connected =>
          cnx := Some(Connection(settings));
          r := Success(cnx.value);
      } else if cfg.Some? {
        match driver(cfg.value)
        case Refused(m) =>
          r := Failure(DriverError(m));
        case Connected =>
          cnx := Some(Connection(cfg.value));
          r := Success(cnx.value);
      } else {
        r := Failure(MissingEnvironment);
      }
    }

    /** `get_rstyle_links_for_post_id(post_id)`: every matching row, possibly
        none; 'not found' only when there is no result set. */
    method GetRstyleLinksForPostId(server: Server, postId: Value) returns (r: Result<seq<Row>, DbError>)
      ensures r == FetchAll(cnx, Owner, server, Queries.BindOne(Queries.RstyleLinksSql, postId))
    {
      if cnx.None? {
        return Failure(NoAttribute(Owner, "cnx"));
      }
      var reply := server(cnx.value, Queries.BindOne(Queries.RstyleLinksSql, postId));
      if reply.Raised? {
        return Failure(DriverError(reply.message));
      }
      if reply.rows.None? {
        return Failure(NotFound);
      }
      r := Success(reply.rows.value);
    }
  }
}
