/** `CollabsConnector` of the reporting-date job: a connection to the
    collaborations MySQL database, chosen from an explicit configuration
    first and from the environment second. */
module SrcCollabs {
  import opened Wrappers
  import opened Sql
  import Queries

  const Owner := "CollabsConnector"

  /** What `connect_collabs_db(cfg)` hands to the driver. A given `cfg` wins
      and its connection is kept; the environment is used only without one,
      and that connection is dropped because the code assigns it to the
      local name `self`. No port is passed on either path. */
  function ConnectPlan(cfg: Option<Kwargs>, env: Environment): (r: Result<Plan, DbError>)
    ensures r.Success? ==> r.value.stores == cfg.Some?
    ensures r.Success? ==> r.value.settings.Keys == {"host", "user", "password", "db", "charset"}
    ensures r.Success? ==> r.value.settings["charset"] == Text("utf8mb4")
    ensures cfg.Some? ==> r.Success? == SettingsFromConfig(cfg.value, CollabsVars).Success?
    ensures cfg.Some? && r.Success? ==> r.value.settings == SettingsFromConfig(cfg.value, CollabsVars).value
    ensures cfg.Some? && r.Failure? ==> r.error.KeyError?
    ensures r == Failure(MissingEnvironment) <==> cfg.None? && !EnvVarsProvided(env, CollabsVars)
    ensures cfg.None? ==> (r.Success? <==> EnvVarsProvided(env, CollabsVars))
    ensures cfg.None? && r.Success? ==> r.value.settings == EnvSettings(env, CollabsVars)
  {
    if cfg.Some? then
      match SettingsFromConfig(cfg.value, CollabsVars)
      case Failure(e) => Failure(e)
      case Success(s) => Success(Plan(s, true))
    else if EnvVarsProvided(env, CollabsVars) then Success(Plan(EnvSettings(env, CollabsVars), false))
    else Failure(MissingEnvironment)
  }

  /** With a configuration given, the environment plays no part. */
  lemma ConfigWins(cfg: Kwargs, env1: Environment, env2: Environment)
    ensures ConnectPlan(Some(cfg), env1) == ConnectPlan(Some(cfg), env2)
  {
  }

  /** Without a configuration, a successful connect leaves `cnx` unset, so
      every later query fails with `AttributeError`. */
  lemma EnvironmentConnectionIsLost(env: Environment, driver: Driver, before: Option<Connection>)
    ensures StoredAfter(ConnectPlan(None, env), driver, before) == before
  {
  }

  class CollabsConnector {
    /** `self.cnx`; `None` while the attribute has never been assigned. */
    var cnx: Option<Connection>

    constructor Unconnected()
      ensures cnx.None?
    {
      cnx := None;
    }

    /** `CollabsConnector(cfg)`: the constructor connects and raises what the
        connect raises. */
    static method Open(cfg: Option<Kwargs>, env: Environment, driver: Driver) returns (r: Result<CollabsConnector, DbError>)
      ensures r.Failure? <==> Establish(ConnectPlan(cfg, env), driver).Failure?
      ensures r.Failure? ==> r.error == Establish(ConnectPlan(cfg, env), driver).error
      ensures r.Success? ==> fresh(r.value) && r.value.cnx == StoredAfter(ConnectPlan(cfg, env), driver, None)
    {
      var c := new CollabsConnector.Unconnected();
      var connected := c.ConnectCollabsDb(cfg, env, driver);
      if connected.Failure? {
        return Failure(connected.error);
      }
      return Success(c);
    }

    /** `connect_collabs_db(cfg)`. */
    method ConnectCollabsDb(cfg: Option<Kwargs>, env: Environment, driver: Driver) returns (r: Result<Connection, DbError>)
      modifies this
      ensures r == Establish(ConnectPlan(cfg, env), driver)
      ensures cnx == StoredAfter(ConnectPlan(cfg, env), driver, old(cnx))
    {
      if cfg.Some? {
        var settings := SettingsFromConfig(cfg.value, CollabsVars);
        if settings.Failure? {
          return Failure(settings.error);
        }
        match driver(settings.value)
        case Refused(m) =>
          r := Failure(DriverError(m));
        case Connected =>
          cnx := Some(Connection(settings.value));
          r := Success(cnx.value);
      } else if EnvVarsProvided(env, CollabsVars) {
        var settings := EnvSettings(env, CollabsVars);
        match driver(settings)
        case Refused(m) =>
          r := Failure(DriverError(m));
        case Connected =>
          r := Success(Connection(settings));
      } else {
        r := Failure(MissingEnvironment);
      }
    }

    /** The cursor steps shared by the queries that end in `fetchall()`. */
    method FetchRows(server: Server, stmt: Statement) returns (r: Result<seq<Row>, DbError>)
      ensures r == FetchAll(cnx, Owner, server, stmt)
    {
      if cnx.None? {
        return Failure(NoAttribute(Owner, "cnx"));
      }
      var reply := server(cnx.value, stmt);
      if reply.Raised? {
        return Failure(DriverError(reply.message));
      }
      if reply.rows.None? {
        return Failure(NotFound);
      }
      r := Success(reply.rows.value);
    }

    /** The cursor steps shared by the queries that end in `fetchone()`. */
    method FetchRow(server: Server, stmt: Statement) returns (r: Result<Row, DbError>)
      ensures r == FetchOne(cnx, Owner, server, stmt)
    {
      if cnx.None? {
        return Failure(NoAttribute(Owner, "cnx"));
      }
      var reply := server(cnx.value, stmt);
      if reply.Raised? {
        return Failure(DriverError(reply.message));
      }
      if reply.rows.None? || reply.rows.value == [] {
        return Failure(NotFound);
      }
      r := Success(reply.rows.value[0]);
    }

    /** `execute(query, data)`: `data` is bound only when it is not `None`,
        and every row is returned, none included. */
    method Execute(server: Server, query: string, data: Option<Params>) returns (r: Result<seq<Row>, DbError>)
      ensures r == FetchAll(cnx, Owner, server, Statement(query, data))
    {
      r := FetchRows(server, Statement(query, data));
    }

    /** `update_campaign_reporting_dates(campaign_ids, data)`: `data` is not
        used; only the campaign ids are bound. */
    method UpdateCampaignReportingDates(server: Server, campaignIds: Params, data: Value) returns (r: Result<seq<Row>, DbError>)
      ensures r == FetchAll(cnx, Owner, server, Statement(Queries.UpdateCampaignSql, Some(campaignIds)))
    {
      r := FetchRows(server, Statement(Queries.UpdateCampaignSql, Some(campaignIds)));
    }

    /** `get_advertiser_ids(brand_id)`: the statement is the same for every
        brand id. */
    method GetAdvertiserIds(server: Server, brandId: Value) returns (r: Result<Row, DbError>)
      ensures r == FetchOne(cnx, Owner, server, Statement(Queries.AdvertiserIdsSql, None))
    {
      Queries.AdvertiserIdsIgnoresBrand(brandId);
      r := FetchRow(server, Queries.AdvertiserIds(brandId));
    }

    /** `get_brand_id(collab_id)`. */
    method GetBrandId(server: Server, collabId: Value) returns (r: Result<Row, DbError>)
      ensures r == FetchOne(cnx, Owner, server, Queries.BindOne(Queries.BrandIdSql, collabId))
    {
      r := FetchRow(server, Queries.BindOne(Queries.BrandIdSql, collabId));
    }

    /** `get_brand_id_by_advertiser_id(advertiser_id)`: the id is spliced into
        the `LIKE` pattern and nothing is bound. */
    method GetBrandIdByAdvertiserId(server: Server, advertiserId: Value) returns (r: Result<Row, DbError>)
      ensures r == FetchOne(cnx, Owner, server, Statement(
        Queries.BrandByAdvertiserPrefix + Str(advertiserId) + Queries.BrandByAdvertiserSuffix, None))
    {
      Queries.BrandByAdvertiserSplices(advertiserId);
      r := FetchRow(server, Queries.BrandByAdvertiser(advertiserId));
    }

    /** `get_collaboration_id_by_obligation_id(obligation_id)`. */
    method GetCollaborationIdByObligationId(server: Server, obligationId: Value) returns (r: Result<Row, DbError>)
      ensures r == FetchOne(cnx, Owner, server, Queries.BindOne(Queries.CollaborationIdSql, obligationId))
    {
      r := FetchRow(server, Queries.BindOne(Queries.CollaborationIdSql, obligationId));
    }

    /** `get_obligation_id_by_post_id(post_id)`. */
    method GetObligationIdByPostId(server: Server, postId: Value) returns (r: Result<Row, DbError>)
      ensures r == FetchOne(cnx, Owner, server, Queries.BindOne(Queries.ObligationIdSql, postId))
    {
      r := FetchRow(server, Queries.BindOne(Queries.ObligationIdSql, postId));
    }

    /** `save_rstyle_links_for_obligation_id(rstyle_links, obligation_id)`:
        the insert is sent, but a `DictCursor` has no `commit`, so the call
        never returns normally. */
    method SaveRstyleLinksForObligationId(server: Server, rstyleLinks: Value, obligationId: Value) returns (r: Result<(), DbError>)
      ensures r.Failure?
      ensures cnx.None? ==> r.error == NoAttribute(Owner, "cnx")
      ensures cnx.Some? ==> r.error == match server(cnx.value, Statement(Queries.SaveRstyleLinksSql, Some(Many([obligationId, rstyleLinks]))))
                                      case Raised(m) => DriverError(m)
                                      case Answered(_) => NoAttribute("DictCursor", "commit")
    {
      if cnx.None? {
        return Failure(NoAttribute(Owner, "cnx"));
      }
      var reply := server(cnx.value, Statement(Queries.SaveRstyleLinksSql, Some(Many([obligationId, rstyleLinks]))));
      if reply.Raised? {
        return Failure(DriverError(reply.message));
      }
      r := Failure(NoAttribute("DictCursor", "commit"));
    }
  }
}
