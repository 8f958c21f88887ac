/**
 * The current server's request handlers (src/server/src/app.py). Each handler is a
 * function of the JSON request body and of what its collaborator (`register_user`,
 * `find_user`, `get_script_breakdown`, `get_lvr_data`, `predict_risk_score`) returned;
 * `consulted` says whether the collaborator was called at all.
 */
module ServerApi {
  import opened Common
  import opened Users
  import Numerals
  import Text
  import Vendors
  import ScriptBreakdown
  import Risk

  /** A JSON value of the request body, as far as the handlers look at it. */
  datatype Value = Text(text: string) | Number(number: int) | Flag(flag: bool) | Null

  /** A request body: a JSON object. */
  type Request = map<string, Value>

  /** Python truthiness: empty text, zero, `false` and `null` are false. */
  predicate Truthy(v: Value) {
    match v
    case Text(s) => s != ""
    case Number(n) => n != 0
    case Flag(b) => b
    case Null => false
  }

  /** `data.get(key)`: a missing key reads as `None`. */
  function Get(data: Request, key: string): (v: Value)
    ensures key !in data ==> v == Null
    ensures key in data ==> v == data[key]
  {
    if key in data then data[key] else Null
  }

  /** `all(field in data for field in required_fields)`: every key is present, whatever its value. */
  predicate HasAll(data: Request, keys: seq<string>) {
    forall i :: 0 <= i < |keys| ==> keys[i] in data
  }

  /** Python's `str` of a value, as an f-string shows it. */
  function PyStr(v: Value): string {
    match v
    case Text(s) => s
    case Number(n) => Numerals.IntString(n)
    case Flag(b) => if b then "True" else "False"
    case Null => "None"
  }

  /** The JSON body of a response. `Unhandled` is an exception no handler catches: Flask answers 500 with its own page. */
  datatype Body =
    | Fail(message: string)
    | Done(message: string)
    | LoggedIn(message: string, user: User)
    | BreakdownReady(breakdown: ScriptBreakdown.Breakdown)
    | VendorList(vendors: seq<Vendors.Vendor>)
    | RiskReady(analysis: Risk.Analysis)
    | Unhandled(error: string)
  {
    /** The body's `success` flag. */
    predicate Success() {
      !Fail? && !Unhandled?
    }
  }

  datatype Response = Response(status: int, body: Body)

  /** A handler's answer, and whether it called its collaborator. */
  datatype Handled = Handled(response: Response, consulted: bool)

  const SignupFields := ["name", "email", "username", "password", "role"]
  const RiskFields := ["days_behind", "cost_variance_pct", "complexity_score"]
  const DprFields := ["scenes_shot", "daily_spend", "delay_minutes"]
  const AssetFields := ["asset_id", "new_status"]

  /** `signup`: 400 without calling `register_user` if a field is missing; else 201 or 409 by its answer. */
  function Signup(data: Request, registration: Registration): (h: Handled)
    ensures h.consulted <==> HasAll(data, SignupFields)
    ensures !h.consulted ==> h.response == Response(400, Fail("Missing required fields"))
    ensures h.consulted && registration.Registered? ==> h.response == Response(201, Done("User registered successfully. Please login."))
    ensures h.consulted && registration.Refused? ==> h.response == Response(409, Fail(registration.message))
    ensures h.response.body.Success() <==> h.response.status == 201
  {
    if !HasAll(data, SignupFields) then Handled(Response(400, Fail("Missing required fields")), false)
    else
      match registration
      case Registered(_) => Handled(Response(201, Done("User registered successfully. Please login.")), true)
      case Refused(m) => Handled(Response(409, Fail(m)), true)
  }

  /**
   * `login`: 400 when the username or password is missing or falsy; else 200 with the
   * four public fields of the user `find_user` returned, or 401 with its message.
   */
  function Login(data: Request, lookup: Lookup<User>): (h: Handled)
    ensures h.consulted <==> Truthy(Get(data, "username")) && Truthy(Get(data, "password"))
    ensures !h.consulted ==> h.response == Response(400, Fail("Username and password required"))
    ensures h.consulted && lookup.Found? ==> h.response == Response(200, LoggedIn("Login successful", lookup.record))
    ensures h.consulted && lookup.NotFound? ==> h.response == Response(401, Fail(lookup.message))
    ensures h.response.body.Success() <==> h.response.status == 200
  {
    if !Truthy(Get(data, "username")) || !Truthy(Get(data, "password")) then
      Handled(Response(400, Fail("Username and password required")), false)
    else
      match lookup
      case Found(u) =>
        Handled(Response(200, LoggedIn("Login successful", User(u.name, u.email, u.username, u.role))), true)
      case NotFound(m) => Handled(Response(401, Fail(m)), true)
  }

  /**
   * `lp_script_breakdown`: 400 when `script_text` is missing or falsy; else 200 with the
   * breakdown, or Flask's 500 when the analysis raised (a non-text script, say).
   */
  function Breakdown(data: Request, analysis: Result<ScriptBreakdown.Breakdown>): (h: Handled)
    ensures h.consulted <==> Truthy(Get(data, "script_text"))
    ensures !h.consulted ==> h.response == Response(400, Fail("Script text is required"))
    ensures h.consulted && analysis.Ok? ==> h.response == Response(200, BreakdownReady(analysis.value))
    ensures h.consulted && analysis.Raised? ==> h.response == Response(500, Unhandled(analysis.message))
  {
    if !Truthy(Get(data, "script_text")) then Handled(Response(400, Fail("Script text is required")), false)
    else
      match analysis
      case Ok(b) => Handled(Response(200, BreakdownReady(b)), true)
      case Raised(m) => Handled(Response(500, Unhandled(m)), true)
  }

  /** The `TypeError` Flask's JSON encoder raises on an ObjectId. */
  const NotSerializable := "Object of type ObjectId is not JSON serializable"

  /**
   * `lp_get_lvr`: 200 with the vendors `get_lvr_data` returned. `get_lvr_data` never
   * raises, but `jsonify` does on stamped dicts, and then Flask answers 500.
   */
  function Lvr(served: Vendors.Listing): (h: Handled)
    ensures h.consulted
    ensures !served.stamped ==> h.response == Response(200, VendorList(served.vendors))
    ensures served.stamped ==> h.response == Response(500, Unhandled(NotSerializable))
  {
    if served.stamped then Handled(Response(500, Unhandled(NotSerializable)), true)
    else Handled(Response(200, VendorList(served.vendors)), true)
  }

  /** `ceo_risk_meter`: 400 if an input is missing; an exception from the predictor is 500 with its message; else 200. */
  function RiskMeter(data: Request, prediction: Result<Risk.Analysis>): (h: Handled)
    ensures h.consulted <==> HasAll(data, RiskFields)
    ensures !h.consulted ==> h.response == Response(400, Fail("Missing AI input data"))
    ensures h.consulted && prediction.Ok? ==> h.response == Response(200, RiskReady(prediction.value))
    ensures h.consulted && prediction.Raised? ==> h.response == Response(500, Fail(prediction.message))
    ensures h.response.body.Success() <==> h.response.status == 200
  {
    if !HasAll(data, RiskFields) then Handled(Response(400, Fail("Missing AI input data")), false)
    else
      match prediction
      case Ok(a) => Handled(Response(200, RiskReady(a)), true)
      case Raised(m) => Handled(Response(500, Fail(m)), true)
  }

  /** `executor_submit_dpr`: the three numbers must be present (notes and user are optional); nothing is stored. */
  function SubmitDpr(data: Request): (r: Response)
    ensures r.status == 200 <==> HasAll(data, DprFields)
    ensures r.status == 200 ==> r.body == Done("Daily Progress Report logged successfully.")
    ensures r.status != 200 ==> r == Response(400, Fail("DPR missing required fields"))
  {
    if !HasAll(data, DprFields) then Response(400, Fail("DPR missing required fields"))
    else Response(200, Done("Daily Progress Report logged successfully."))
  }

  /** The confirmation of an asset update. */
  function AssetMessage(id: Value, status: Value): string {
    "Asset " + PyStr(id) + " status updated to " + PyStr(status) + "."
  }

  /** `creative_update_asset`: both keys must be present; the confirmation names the asset and its new status. */
  function UpdateAsset(data: Request): (r: Response)
    ensures r.status == 200 <==> HasAll(data, AssetFields)
    ensures r.status == 200 ==> r.body == Done(AssetMessage(Get(data, "asset_id"), Get(data, "new_status")))
    ensures r.status != 200 ==> r == Response(400, Fail("Asset status update missing fields"))
  {
    if !HasAll(data, AssetFields) then Response(400, Fail("Asset status update missing fields"))
    else Response(200, Done(AssetMessage(Get(data, "asset_id"), Get(data, "new_status"))))
  }

  /** The asset confirmation mentions both the asset id and the new status, as Python prints them. */
  lemma AssetMessageNamesBoth(id: Value, status: Value)
    ensures Text.Contains(AssetMessage(id, status), PyStr(id))
    ensures Text.Contains(AssetMessage(id, status), PyStr(status))
  {
    var m := AssetMessage(id, status);
    assert m == "Asset " + PyStr(id) + (" status updated to " + PyStr(status) + ".");
    Text.ContainsSpliced("Asset ", PyStr(id), " status updated to " + PyStr(status) + ".");
    assert m == "Asset " + PyStr(id) + " status updated to " + PyStr(status) + ".";
    Text.ContainsSpliced("Asset " + PyStr(id) + " status updated to ", PyStr(status), ".");
  }

  /**
   * Signup checks that keys are present and login that values are truthy: an account
   * with an empty password can be registered but never logged in to.
   */
  lemma EmptyPasswordPassesSignupOnly(data: Request, registration: Registration, lookup: Lookup<User>)
    requires HasAll(data, SignupFields) && Get(data, "password") == Text("")
    ensures Signup(data, registration).consulted
    ensures Login(data, lookup).response == Response(400, Fail("Username and password required"))
  {
  }

  /** A logged-in reply carries exactly the user `find_user` returned; a user record has no password field to leak. */
  lemma LoginReturnsFoundUser(data: Request, u: User)
    requires Truthy(Get(data, "username")) && Truthy(Get(data, "password"))
    ensures Login(data, Found(u)).response.body.user == u
  {
  }

  /** The DPR check needs only its three numbers: `notes` may be absent. */
  lemma DprNotesOptional(data: Request)
    requires HasAll(data, DprFields)
    ensures SubmitDpr(data - {"notes"}).status == 200
  {
    assert forall i :: 0 <= i < |DprFields| ==> DprFields[i] != "notes";
  }

  /** The current predictor never raises on numeric or non-numeric input, so the meter answers 200 for them. */
  lemma RiskMeterAnswers(data: Request, cast: Risk.Cast, p: Risk.Prediction)
    requires HasAll(data, RiskFields) && !cast.CastRaised?
    ensures RiskMeter(data, Risk.Predict(cast, p)).response.status == 200
  {
  }
}
