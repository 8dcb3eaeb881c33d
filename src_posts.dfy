/** `PostConnector` of the reporting-date job: a connection to the posts
    MySQL database, chosen from an explicit configuration first and from the
    environment second. The class has no `executemany`. */
module SrcPosts {
  import opened Wrappers
  import opened Sql
  import Queries

  const Owner := "PostConnector"

  /** What `connect_post_db(cfg)` hands to the driver. A given `cfg` wins and
      its connection is kept in `self.cnx`; the environment is used only
      without one, and that connection is dropped because the code assigns
      it to the local name `self`. No port is passed on either path. */
  function ConnectPlan(cfg: Option<Kwargs>, env: Environment): (r: Result<Plan, DbError>)
    ensures r.Success? ==> r.value.stores == cfg.Some?
    ensures r.Success? ==> r.value.settings.Keys == {"host", "user", "password", "db", "charset"}
    ensures r.Success? ==> r.value.settings["charset"] == Text("utf8mb4")
    ensures cfg.Some? ==> r.Success? == SettingsFromConfig(cfg.value, PostVars).Success?
    ensures cfg.Some? && r.Success? ==> r.value.settings == SettingsFromConfig(cfg.value, PostVars).value
    ensures cfg.Some? && r.Failure? ==> r.error.KeyError?
    ensures r == Failure(MissingEnvironment) <==> cfg.None? && !EnvVarsProvided(env, PostVars)
    ensures cfg.None? ==> (r.Success? <==> EnvVarsProvided(env, PostVars))
    ensures cfg.None? && r.Success? ==> r.value.settings == EnvSettings(env, PostVars)
  {
    if cfg.Some? then
      match SettingsFromConfig(cfg.value, PostVars)
      case Failure(e) => Failure(e)
      case Success(s) => Success(Plan(s, true))
    else if EnvVarsProvided(env, PostVars) then Success(Plan(EnvSettings(env, PostVars), false))
    else Failure(MissingEnvironment)
  }

  /** Without a configuration, a successful connect leaves `cnx` unset. */
  lemma EnvironmentConnectionIsLost(env: Environment, driver: Driver, before: Option<Connection>)
    ensures StoredAfter(ConnectPlan(None, env), driver, before) == before
  {
  }

  class PostConnector {
    /** `self.cnx`; `None` while the attribute has never been assigned. */
    var cnx: Option<Connection>

    constructor Unconnected()
      ensures cnx.None?
    {
      cnx := None;
    }

    /** `PostConnector(cfg)`: the constructor connects and raises what the
        connect raises. */
    static method Open(cfg: Option<Kwargs>, env: Environment, driver: Driver) returns (r: Result<PostConnector, DbError>)
      ensures r.Failure? <==> Establish(ConnectPlan(cfg, env), driver).Failure?
      ensures r.Failure? ==> r.error == Establish(ConnectPlan(cfg, env), driver).error
      ensures r.Success? ==> fresh(r.value) && r.value.cnx == StoredAfter(ConnectPlan(cfg, env), driver, None)
    {
      var c := new PostConnector.Unconnected();
      var connected := c.ConnectPostDb(cfg, env, driver);
      if connected.Failure? {
        return Failure(connected.error);
      }
      return Success(c);
    }

    /** `connect_post_db(cfg)`. */
    method ConnectPostDb(cfg: Option<Kwargs>, env: Environment, driver: Driver) returns (r: Result<Connection, DbError>)
      modifies this
      ensures r == Establish(ConnectPlan(cfg, env), driver)
      ensures cnx == StoredAfter(ConnectPlan(cfg, env), driver, old(cnx))
    {
      if cfg.Some? {
        var settings := SettingsFromConfig(cfg.value, PostVars);
        if settings.Failure? {
          return Failure(settings.error);
        }
        match driver(settings.value)
        case Refused(m) =>
          r := Failure(DriverError(m));
        case Connected =>
          cnx := Some(Connection(settings.value));
          r := Success(cnx.value);
      } else if EnvVarsProvided(env, PostVars) {
        var settings := EnvSettings(env, PostVars);
        match driver(settings)
        case Refused(m) =>
          r := Failure(DriverError(m));
        case Connected =>
          r := Success(Connection(settings));
      } else {
        r := Failure(MissingEnvironment);
      }
    }

    /** The cursor steps shared by the queries, all of which end in
        `fetchall()`. */
    method FetchRows(server: Server, stmt: Statement) returns (r: Result<seq<Row>, DbError>)
      ensures r == FetchAll(cnx, Owner, server, stmt)
    {
      if cnx.None? {
        return Failure(NoAttribute(Owner, "cnx"));
      }
      var reply := server(cnx.value, stmt);
      if reply.Raised? {
        return Failure(DriverError(reply.message));
      }
      if reply.rows.None? {
        return Failure(NotFound);
      }
      r := Success(reply.rows.value);
    }

    /** `execute(query, data)`: `data` is bound only when it is not `None`,
        and every row is returned, none included. */
    method Execute(server: Server, query: string, data: Option<Params>) returns (r: Result<seq<Row>, DbError>)
      ensures r == FetchAll(cnx, Owner, server, Statement(query, data))
    {
      r := FetchRows(server, Statement(query, data));
    }

    /** `update_batch_posts(post_ids, data)`: `data` is not used; only the post
        ids are bound. */
    method UpdateBatchPosts(server: Server, postIds: Params, data: Value) returns (r: Result<seq<Row>, DbError>)
      ensures r == FetchAll(cnx, Owner, server, Statement(Queries.UpdateBatchPostsSql, Some(postIds)))
    {
      r := FetchRows(server, Statement(Queries.UpdateBatchPostsSql, Some(postIds)));
    }

    /** `get_rstyle_links_for_post_id(post_id)`: every matching row, possibly
        none. */
    method GetRstyleLinksForPostId(server: Server, postId: Value) returns (r: Result<seq<Row>, DbError>)
      ensures r == FetchAll(cnx, Owner, server, Queries.BindOne(Queries.RstyleLinksSql, postId))
    {
      r := FetchRows(server, Queries.BindOne(Queries.RstyleLinksSql, postId));
    }
  }
}
