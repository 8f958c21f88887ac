/**
 * End-to-end flows: what a page makes of a handler's response, and the journeys that
 * chain the current signup page, server, data layer and session (src/server/src and
 * src/client/src/App.tsx) with the older login page (client/src/pages/Login.tsx). The
 * current client's login page, src/client/src/pages/Login.tsx, is not modelled; the
 * older one stands in for it.
 */
module Flows {
  import opened Common
  import opened Users
  import opened Forms
  import Registry
  import ServerApi
  import SignupPage
  import LoginPage
  import Session
  import LineProducer
  import Vendors
  import Profile

  /** The JSON body a page sends for its form. */
  function RequestOf(form: Form<string>): (r: ServerApi.Request)
    ensures r.Keys == form.Keys
    ensures forall k :: k in form ==> r[k] == ServerApi.Text(form[k])
  {
    map k | k in form :: ServerApi.Text(form[k])
  }

  /** The account `register_user` reads from a complete signup form. */
  function AccountOf(form: Form<string>): Account
    requires form.Keys == SignupPage.InitialForm.Keys
  {
    SignupPage.InitialFormShape();
    Account(form["name"], form["email"], form["username"], form["password"], form["role"])
  }

  /**
   * What the signup page reads from a response: `success` with its message, a failure
   * with its message, or, for Flask's own error page, which is not JSON, the network branch.
   */
  function AsSignupReply(r: ServerApi.Response): (reply: SignupPage.SignupReply)
    ensures reply.Created? <==> r.body.Done?
    ensures r.body.Fail? ==> reply == SignupPage.Refused(r.body.message)
  {
    match r.body
    case Done(m) => SignupPage.Created(m)
    case Fail(m) => SignupPage.Refused(m)
    case _ => SignupPage.Unreachable
  }

  /** What the login page reads from a response; a body the login handler never sends reads as no answer. */
  function AsLoginReply(r: ServerApi.Response): (reply: LoginPage.LoginReply)
    ensures reply.Accepted? <==> r.body.LoggedIn?
    ensures reply.Accepted? ==> reply.user == r.body.user
    ensures r.body.Fail? ==> reply == LoginPage.Refused(r.body.message)
  {
    match r.body
    case LoggedIn(_, u) => LoginPage.Accepted(u)
    case Fail(m) => LoginPage.Refused(m)
    case _ => LoginPage.Unreachable
  }

  /**
   * What the vendor panel reads from a response: the list, a refusal, or (for a non-JSON
   * page, or a success without a list, where `.sort` throws) the network branch.
   */
  function AsVendorReply(r: ServerApi.Response): (reply: LineProducer.VendorReply)
    ensures reply.Listed? <==> r.body.VendorList?
    ensures reply.Listed? ==> reply.vendors == r.body.vendors
  {
    match r.body
    case VendorList(vs) => LineProducer.Listed(vs)
    case Fail(_) => LineProducer.ListRefused
    case _ => LineProducer.ListUnreachable
  }

  /** The login form a user fills in after signing up. */
  function LoginFormOf(form: Form<string>): Form<string>
    requires "username" in form && "password" in form
  {
    map["username" := form["username"], "password" := form["password"]]
  }

  /** The request of a complete signup form carries all five fields the handler checks for. */
  lemma CompleteFormHasSignupFields(form: Form<string>)
    requires form.Keys == SignupPage.InitialForm.Keys
    ensures ServerApi.HasAll(RequestOf(form), ServerApi.SignupFields)
  {
    SignupPage.InitialFormShape();
  }

  /** A complete signup form with a fresh username and email is accepted, and the page moves on to `/login`. */
  lemma SignupAccepted(db: Registry.Store, form: Form<string>)
    requires form.Keys == SignupPage.InitialForm.Keys
    requires db.Online? && !Taken(db.users, AccountOf(form))
    ensures var reg := Registry.Register(db, AccountOf(form), None);
      SignupPage.Submit(form, AsSignupReply(ServerApi.Signup(RequestOf(form), reg.result).response)).next == Some("/login")
  {
    CompleteFormHasSignupFields(form);
  }

  /** Logging in with the username and password just registered signs in exactly the form's public fields. */
  lemma LoginAfterSignup(db: Registry.Store, form: Form<string>)
    requires form.Keys == SignupPage.InitialForm.Keys
    requires form["username"] != "" && form["password"] != ""
    requires db.Online? && !Taken(db.users, AccountOf(form))
    ensures var reg := Registry.Register(db, AccountOf(form), None);
      var lf := LoginFormOf(form);
      var reply := AsLoginReply(ServerApi.Login(RequestOf(lf), Registry.FindUser(reg.store, form["username"], form["password"], None)).response);
      LoginPage.Submit(lf, reply).signedIn == Some(PublicView(AccountOf(form)))
  {
    var a := AccountOf(form);
    Registry.RegisterThenFind(db, a);
    var lf := LoginFormOf(form);
    assert ServerApi.Get(RequestOf(lf), "username") == ServerApi.Text(form["username"]);
    assert ServerApi.Get(RequestOf(lf), "password") == ServerApi.Text(form["password"]);
  }

  /**
   * A signed-in user with one of the four roles lands on that role's dashboard. A
   * reload of `/dashboard` restores the user but ends on the login page, because the
   * first render redirects before the restore runs; a later visit to `/dashboard`, once
   * the restore has run, shows the dashboard again.
   */
  lemma SignedInLandsOnDashboard(st: Session.AppState, u: User, r: Role)
    requires u.role == RoleName(r)
    ensures Session.Route(Session.HandleLogin(st, u), "/dashboard") == Session.RoleDashboard(r)
    ensures Session.Reload(Session.HandleLogin(st, u).stored, "/dashboard") == Session.LoginPage
    ensures Session.Boot(Session.HandleLogin(st, u).stored).user == Some(u)
    ensures Session.Route(Session.Boot(Session.HandleLogin(st, u).stored), "/dashboard") == Session.RoleDashboard(r)
  {
    RoleNameRoundTrip(r, RoleName(r));
    Session.ReloadAfterLogin(st, u);
  }

  /**
   * Signing up with a fresh username and email and one of the four roles, then logging
   * in with the same username and password, lands on that role's dashboard. A reload
   * of `/dashboard` then ends on the login page with the user restored, and a visit to
   * `/dashboard` after that shows the dashboard.
   */
  lemma SignupLoginDashboard(db: Registry.Store, form: Form<string>, r: Role, st: Session.AppState)
    requires form.Keys == SignupPage.InitialForm.Keys
    requires form["role"] == RoleName(r) && form["username"] != "" && form["password"] != ""
    requires db.Online? && !Taken(db.users, AccountOf(form))
    ensures var reg := Registry.Register(db, AccountOf(form), None);
      var lf := LoginFormOf(form);
      var reply := AsLoginReply(ServerApi.Login(RequestOf(lf), Registry.FindUser(reg.store, form["username"], form["password"], None)).response);
      var out := LoginPage.Submit(lf, reply);
      && out.signedIn.Some?
      && Session.Route(Session.HandleLogin(st, out.signedIn.value), "/dashboard") == Session.RoleDashboard(r)
      && Session.Reload(Session.HandleLogin(st, out.signedIn.value).stored, "/dashboard") == Session.LoginPage
      && Session.Route(Session.Boot(Session.HandleLogin(st, out.signedIn.value).stored), "/dashboard") == Session.RoleDashboard(r)
  {
    LoginAfterSignup(db, form);
    SignedInLandsOnDashboard(st, PublicView(AccountOf(form)), r);
  }

  /**
   * The server stores any role string: an account registered through the API with a
   * role outside the four can log in, but its dashboard sends it back to `/login` and its
   * profile shows the role in gray.
   */
  lemma UnknownRoleIsStranded(db: Registry.Store, a: Account, st: Session.AppState)
    requires ParseRole(a.role).None? && a.username != "" && a.password != ""
    requires Registry.Register(db, a, None).result.Registered?
    ensures var db' := Registry.Register(db, a, None).store;
      var lf := map["username" := a.username, "password" := a.password];
      var reply := AsLoginReply(ServerApi.Login(RequestOf(lf), Registry.FindUser(db', a.username, a.password, None)).response);
      && reply == LoginPage.Accepted(PublicView(a))
      && Session.Route(Session.HandleLogin(st, PublicView(a)), "/dashboard") == Session.Redirect("/login")
      && Profile.RoleTone(a.role) == Gray
  {
    Registry.RegisterThenFind(db, a);
    var lf := map["username" := a.username, "password" := a.password];
    assert ServerApi.Get(RequestOf(lf), "username") == ServerApi.Text(a.username);
    assert ServerApi.Get(RequestOf(lf), "password") == ServerApi.Text(a.password);
  }

  /** A second signup with the same form is refused and shown red on the signup page. */
  lemma DuplicateSignupIsRed(db: Registry.Store, form: Form<string>)
    requires form.Keys == SignupPage.InitialForm.Keys
    requires Registry.Register(db, AccountOf(form), None).result.Registered?
    ensures var db' := Registry.Register(db, AccountOf(form), None).store;
      var reply := AsSignupReply(ServerApi.Signup(RequestOf(form), Registry.Register(db', AccountOf(form), None).result).response);
      && reply == SignupPage.Refused(Registry.AlreadyExists)
      && MessageTone(SignupPage.Submit(form, reply).message) == Red
  {
    CompleteFormHasSignupFields(form);
    Registry.SecondRegistrationRefused(db, AccountOf(form));
    var db' := Registry.Register(db, AccountOf(form), None).store;
    SignupPage.OutcomeTone(form, AsSignupReply(ServerApi.Signup(RequestOf(form), Registry.Register(db', AccountOf(form), None).result).response));
  }

  /** The first vendor load against an empty database seeds it and shows the four vendors ranked 95, 92, 85, 78. */
  lemma FirstVendorLoad(users: seq<Account>, p: LineProducer.Page)
    ensures var served := Registry.GetLvrData(Registry.Online(users, []), false, None).served;
      var q := LineProducer.LoadLvr(p, AsVendorReply(ServerApi.Lvr(served).response));
      && q.message == LineProducer.LoadedMessage
      && [q.vendors[0].lvrScore, q.vendors[1].lvrScore, q.vendors[2].lvrScore, q.vendors[3].lvrScore] == [95, 92, 85, 78]
  {
    LineProducer.SeedTable(p);
  }

  /**
   * The current vendor route fails exactly when `get_lvr_data` falls back to
   * `MOCK_VENDORS` after this process has seeded: `jsonify` cannot encode their `_id`.
   */
  lemma VendorRouteFails(db: Registry.Store, mocksStamped: bool, fault: Option<string>)
    ensures var h := ServerApi.Lvr(Registry.GetLvrData(db, mocksStamped, fault).served);
      && (h.response.status == 500 <==> (db.Offline? || fault.Some?) && mocksStamped)
      && (h.response.status == 200 <==> h.response.body == ServerApi.VendorList(Registry.GetLvrData(db, mocksStamped, fault).served.vendors))
  {
  }

  /**
   * The start-up call (src/server/src/app.py:115) seeds an empty collection and so
   * stamps `MOCK_VENDORS`; the fallback after a later driver error then answers 500
   * instead of serving the four mock vendors.
   */
  lemma SeededFallbackFails(users: seq<Account>, m: string)
    ensures var boot := Registry.GetLvrData(Registry.Online(users, []), false, None);
      var later := Registry.GetLvrData(boot.store, boot.mocksStamped, Some(m));
      && later.served.vendors == Vendors.SeedVendors
      && ServerApi.Lvr(later.served).response == ServerApi.Response(500, ServerApi.Unhandled(ServerApi.NotSerializable))
  {
    Registry.EmptyDatabaseServesSeed(users, false);
  }

  /** Seeding from a copy leaves `MOCK_VENDORS` as it was, so the same sequence serves the mock vendors with 200. */
  lemma CopyingFallbackServes(users: seq<Account>, m: string)
    ensures var boot := Registry.GetLvrDataCopying(Registry.Online(users, []), false, None);
      var later := Registry.GetLvrDataCopying(boot.store, boot.mocksStamped, Some(m));
      ServerApi.Lvr(later.served).response == ServerApi.Response(200, ServerApi.VendorList(Vendors.SeedVendors))
  {
    Registry.EmptyDatabaseServesSeed(users, false);
  }

  /** Seeding from a copy, a process that starts unstamped stays so, and every vendor request answers 200 with the list read. */
  lemma CopyingAlwaysAnswers(db: Registry.Store, fault: Option<string>)
    ensures var s := Registry.GetLvrDataCopying(db, false, fault);
      && !s.mocksStamped
      && ServerApi.Lvr(s.served).response == ServerApi.Response(200, ServerApi.VendorList(Registry.GetLvrData(db, false, fault).served.vendors))
  {
  }
}
