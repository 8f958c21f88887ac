/**
 * The older server (server/src/app.py) wired to its own data layer and predictor. Its
 * signup, breakdown, vendor and risk handlers are the current server's handlers line
 * for line; its login projects the full stored record the older `find_user` returns.
 * No route catches an exception from the data layer, so a driver error is Flask's 500.
 */
module LegacyServer {
  import opened Common
  import opened Users
  import opened ServerApi
  import Registry
  import LegacyRegistry
  import ScriptBreakdown
  import Risk

  /** `signup`: the current handler over the registry's answer; an exception from `register_user` is a 500. */
  function Signup(data: Request, registration: Result<Registration>): (h: Handled)
    ensures h.consulted <==> HasAll(data, SignupFields)
    ensures !h.consulted ==> h.response == Response(400, Fail("Missing required fields"))
    ensures h.consulted && registration.Raised? ==> h.response == Response(500, Unhandled(registration.message))
    ensures h.consulted && registration.Ok? ==> h == ServerApi.Signup(data, registration.value)
  {
    if !HasAll(data, SignupFields) then Handled(Response(400, Fail("Missing required fields")), false)
    else
      match registration
      case Ok(r) => ServerApi.Signup(data, r)
      case Raised(m) => Handled(Response(500, Unhandled(m)), true)
  }

  /**
   * `login`: as the current handler, but `find_user` hands back the whole record,
   * password included; an exception from `find_user` is a 500.
   */
  function Login(data: Request, lookup: Result<Lookup<Account>>): (h: Handled)
    ensures h.consulted <==> Truthy(Get(data, "username")) && Truthy(Get(data, "password"))
    ensures !h.consulted ==> h.response == Response(400, Fail("Username and password required"))
    ensures h.consulted && lookup.Ok? && lookup.value.Found? ==>
      h.response == Response(200, LoggedIn("Login successful", PublicView(lookup.value.record)))
    ensures h.consulted && lookup.Ok? && lookup.value.NotFound? ==> h.response == Response(401, Fail(lookup.value.message))
    ensures h.consulted && lookup.Raised? ==> h.response == Response(500, Unhandled(lookup.message))
  {
    if !Truthy(Get(data, "username")) || !Truthy(Get(data, "password")) then
      Handled(Response(400, Fail("Username and password required")), false)
    else
      match lookup
      case Ok(Found(a)) =>
        Handled(Response(200, LoggedIn("Login successful", User(a.name, a.email, a.username, a.role))), true)
      case Ok(NotFound(m)) => Handled(Response(401, Fail(m)), true)
      case Raised(m) => Handled(Response(500, Unhandled(m)), true)
  }

  /** `lp_get_lvr`: 200 with whatever `get_lvr_data` returned; an exception from it is a 500. */
  function Lvr(vendors: Result<seq<Vendors.Vendor>>): (h: Handled)
    ensures h.consulted
    ensures vendors.Ok? ==> h.response == Response(200, VendorList(vendors.value))
    ensures vendors.Raised? ==> h.response == Response(500, Unhandled(vendors.message))
  {
    match vendors
    case Ok(vs) => ServerApi.Lvr(Vendors.Listing(vs, false))
    case Raised(m) => Handled(Response(500, Unhandled(m)), true)
  }

  /** The request body a client sends for an account. */
  function SignupRequest(a: Account): Request {
    map["name" := Text(a.name), "email" := Text(a.email), "username" := Text(a.username),
        "password" := Text(a.password), "role" := Text(a.role)]
  }

  function LoginRequest(username: string, password: string): Request {
    map["username" := Text(username), "password" := Text(password)]
  }

  /**
   * Signing up against the older data layer: 201 exactly when the database is up, the
   * driver does not fail and neither username nor email is taken; a driver error is a 500.
   */
  lemma SignupOverLegacyRegistry(db: Registry.Store, a: Account, fault: Option<string>)
    ensures var h := Signup(SignupRequest(a), LegacyRegistry.Answer(LegacyRegistry.Register(db, a, fault)));
      && h.consulted
      && (h.response.status == 201 <==> db.Online? && fault.None? && !Taken(db.users, a))
      && (db.Offline? ==> h.response == Response(409, Fail("Database not connected.")))
      && (db.Online? && fault.Some? ==> h.response == Response(500, Unhandled(fault.value)))
      && (db.Online? && fault.None? && Taken(db.users, a) ==> h.response == Response(409, Fail("Username or Email already exists.")))
  {
  }

  /**
   * A driver error during signup: the older server lets it escape as a 500, the
   * current one catches it and answers 409 with its message.
   */
  lemma DriverFaultUncaught(db: Registry.Store, a: Account, m: string)
    requires db.Online?
    ensures Signup(SignupRequest(a), LegacyRegistry.Answer(LegacyRegistry.Register(db, a, Some(m)))).response
      == Response(500, Unhandled(m))
    ensures ServerApi.Signup(SignupRequest(a), Registry.Register(db, a, Some(m)).result).response
      == Response(409, Fail("Registration failed: " + m))
  {
  }

  /**
   * Signing up and then logging in against the older data layer gives back the
   * account's public fields: the plaintext password the store returns is dropped.
   */
  lemma SignupThenLoginOverLegacyRegistry(db: Registry.Store, a: Account)
    requires LegacyRegistry.Register(db, a, None).value.result.Registered?
    requires a.username != "" && a.password != ""
    ensures var db' := LegacyRegistry.Register(db, a, None).value.store;
      Login(LoginRequest(a.username, a.password), LegacyRegistry.FindUser(db', a.username, a.password, None)).response
        == Response(200, LoggedIn("Login successful", PublicView(a)))
  {
    LegacyRegistry.RegisterThenFind(db, a);
  }

  /**
   * The older server answers 200 to a vendor request unless the driver fails, even
   * with no database, when it carries an empty list.
   */
  lemma LvrAnswers(db: Registry.Store, fault: Option<string>)
    ensures var h := Lvr(LegacyRegistry.Answer(LegacyRegistry.GetLvrData(db, fault)));
      && (h.response.status == 200 <==> db.Offline? || fault.None?)
      && (db.Offline? ==> h.response.body == VendorList([]))
      && (db.Online? && fault.Some? ==> h.response == Response(500, Unhandled(fault.value)))
  {
  }

  /** A breakdown request with text gets the older analysis back with status 200. */
  lemma BreakdownOverLegacyAnalysis(data: Request, engine: ScriptBreakdown.Engine, first: int, second: int, days: int)
    requires Truthy(Get(data, "script_text")) && ScriptBreakdown.DrawsInRange(engine, first, second)
    ensures Breakdown(data, Ok(ScriptBreakdown.Analyse(engine, first, second, days))).response.status == 200
    ensures Breakdown(data, Ok(ScriptBreakdown.Analyse(engine, first, second, days))).response.body.breakdown.complexityScore <= 100
  {
  }

  /** The older predictor lets a failed prediction escape, and the risk handler turns it into a 500 with its message. */
  lemma RiskMeterOverLegacyPredictor(data: Request, cast: Risk.Cast, p: Risk.Prediction)
    requires HasAll(data, RiskFields)
    ensures cast.Numeric? && p.PredictionRaised? ==> RiskMeter(data, Risk.LegacyPredict(cast, p)).response == Response(500, Fail(p.message))
    ensures cast.NotNumeric? ==> RiskMeter(data, Risk.LegacyPredict(cast, p)).response.status == 200
    ensures cast.Numeric? && p.Predicted? ==> RiskMeter(data, Risk.LegacyPredict(cast, p)).response == Response(200, RiskReady(Risk.Assess(p.value)))
  {
  }
}
