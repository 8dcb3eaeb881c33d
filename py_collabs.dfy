/** `CollabsConector` of the scripts package: the same queries as the job's
    collaborations connector, but the environment is tried before the
    configuration. */
module PyCollabs {
  import opened Wrappers
  import opened Sql
  import Queries
  import SrcCollabs

  const Owner := "CollabsConector"

  /** What `connect_collabs_db(cfg)` hands to the driver. The environment
      wins, and its connection is dropped because the code assigns it to the
      local name `self`; a given `cfg` is passed to the driver unchanged and
      its connection is kept. */
  function ConnectPlan(cfg: Option<Kwargs>, env: Environment): (r: Result<Plan, DbError>)
    ensures r.Success? ==> r.value.stores == !EnvVarsProvided(env, CollabsVars)
    ensures EnvVarsProvided(env, CollabsVars) ==> r == Success(Plan(EnvSettings(env, CollabsVars), false))
    ensures !EnvVarsProvided(env, CollabsVars) && cfg.Some? ==> r == Success(Plan(cfg.value, true))
    ensures r.Failure? <==> !EnvVarsProvided(env, CollabsVars) && cfg.None?
    ensures r.Failure? ==> r.error == MissingEnvironment
  {
    if EnvVarsProvided(env, CollabsVars) then Success(Plan(EnvSettings(env, CollabsVars), false))
    else if cfg.Some? then Success(Plan(cfg.value, true))
    else Failure(MissingEnvironment)
  }

  /** The two collaborations connectors disagree whenever both sources are
      there: the job's connector uses the configuration and keeps the
      connection, this one uses the environment and loses it. */
  lemma OppositePrecedence(cfg: Kwargs, env: Environment)
    requires EnvVarsProvided(env, CollabsVars)
    requires SettingsFromConfig(cfg, CollabsVars).Success?
    ensures SrcCollabs.ConnectPlan(Some(cfg), env) == Success(Plan(SettingsFromConfig(cfg, CollabsVars).value, true))
    ensures ConnectPlan(Some(cfg), env) == Success(Plan(EnvSettings(env, CollabsVars), false))
    ensures SrcCollabs.ConnectPlan(Some(cfg), env) != ConnectPlan(Some(cfg), env)
  {
  }

  class CollabsConector {
    /** `self.cnx`; `None` while the attribute has never been assigned. */
    var cnx: Option<Connection>

    constructor Unconnected()
      ensures cnx.None?
    {
      cnx := None;
    }

    /** `CollabsConector(cfg)`: `cfg` has no default, and the constructor
        raises what the connect raises. */
    static method Open(cfg: Option<Kwargs>, env: Environment, driver: Driver) returns (r: Result<CollabsConector, DbError>)
      ensures r.Failure? <==> Establish(ConnectPlan(cfg, env), driver).Failure?
      ensures r.Failure? ==> r.error == Establish(ConnectPlan(cfg, env), driver).error
      ensures r.Success? ==> fresh(r.value) && r.value.cnx == StoredAfter(ConnectPlan(cfg, env), driver, None)
    {
      var c := new CollabsConector.Unconnected();
      var connected := c.ConnectCollabsDb(cfg, env, driver);
      if connected.Failure? {
        return Failure(connected.error);
      }
      return Success(c);
    }

    /** `connect_collabs_db(cfg)`. */
    method ConnectCollabsDb(cfg: Option<Kwargs>, env: Environment, driver: Driver) returns (r: Result<Connection, DbError>)
      modifies this
      ensures r == Establish(ConnectPlan(cfg, env), driver)
      ensures cnx == StoredAfter(ConnectPlan(cfg, env), driver, old(cnx))
    {
      if EnvVarsProvided(env, CollabsVars) {
        var settings := EnvSettings(env, CollabsVars);
        match driver(settings)
        case Refused(m) =>
          r := Failure(DriverError(m));
        case Connected =>
          r := Success(Connection(settings));
      } else if cfg.Some? {
        match driver(cfg.value)
        case Refused(m) =>
          r := Failure(DriverError(m));
        case Connected =>
          cnx := Some(Connection(cfg.value));
          r := Success(cnx.value);
      } else {
        r := Failure(MissingEnvironment);
      }
    }

    /** The cursor steps shared by the getters, all of which end in
        `fetchone()`. */
    method FetchRow(server: Server, stmt: Statement) returns (r: Result<Row, DbError>)
      ensures r == FetchOne(cnx, Owner, server, stmt)
    {
      if cnx.None? {
        return Failure(NoAttribute(Owner, "cnx"));
      }
      var reply := server(cnx.value, stmt);
      if reply.Raised? {
        return Failure(DriverError(reply.message));
      }
      if reply.rows.None? || reply.rows.value == [] {
        return Failure(NotFound);
      }
      r := Success(reply.rows.value[0]);
    }

    /** `get_advertiser_ids(brand_id)`: the statement is the same for every
        brand id. */
    method GetAdvertiserIds(server: Server, brandId: Value) returns (r: Result<Row, DbError>)
      ensures r == FetchOne(cnx, Owner, server, Statement(Queries.AdvertiserIdsSql, None))
    {
      Queries.AdvertiserIdsIgnoresBrand(brandId);
      r := FetchRow(server, Queries.AdvertiserIds(brandId));
    }

    /** `get_brand_id(collab_id)`. */
    method GetBrandId(server: Server, collabId: Value) returns (r: Result<Row, DbError>)
      ensures r == FetchOne(cnx, Owner, server, Queries.BindOne(Queries.BrandIdSql, collabId))
    {
      r := FetchRow(server, Queries.BindOne(Queries.BrandIdSql, collabId));
    }

    /** `get_brand_id_by_advertiser_id(advertiser_id)`. */
    method GetBrandIdByAdvertiserId(server: Server, advertiserId: Value) returns (r: Result<Row, DbError>)
      ensures r == FetchOne(cnx, Owner, server, Statement(
        Queries.BrandByAdvertiserPrefix + Str(advertiserId) + Queries.BrandByAdvertiserSuffix, None))
    {
      Queries.BrandByAdvertiserSplices(advertiserId);
      r := FetchRow(server, Queries.BrandByAdvertiser(advertiserId));
    }

    /** `get_collaboration_id_by_obligation_id(obligation_id)`. */
    method GetCollaborationIdByObligationId(server: Server, obligationId: Value) returns (r: Result<Row, DbError>)
      ensures r == FetchOne(cnx, Owner, server, Queries.BindOne(Queries.CollaborationIdSql, obligationId))
    {
      r := FetchRow(server, Queries.BindOne(Queries.CollaborationIdSql, obligationId));
    }

    /** `get_obligation_id_by_post_id(post_id)`. */
    method GetObligationIdByPostId(server: Server, postId: Value) returns (r: Result<Row, DbError>)
      ensures r == FetchOne(cnx, Owner, server, Queries.BindOne(Queries.ObligationIdSql, postId))
    {
      r := FetchRow(server, Queries.BindOne(Queries.ObligationIdSql, postId));
    }
  }
}
