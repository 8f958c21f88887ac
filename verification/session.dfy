/**
 * The session core of the current client (src/client/src/App.tsx): the in-memory
 * current user, its mirror in the browser storage slot `shotweaveUser`, the role
 * dispatch to a dashboard and the route table.
 */
module Session {
  import opened Common
  import opened Users
  import Codec

  /** The single storage key the session lives under. */
  const StorageKey := "shotweaveUser"

  /** The current user (`null` when signed out) and the content of the storage slot. */
  datatype AppState = AppState(user: Option<User>, stored: Option<string>)

  /** What a route renders: a page, or a redirect to another path. */
  datatype Screen =
    | Landing
    | SignupPage
    | LoginPage
    | ProducerDashboard
    | LineProducerDashboard
    | ExecutorDashboard
    | CreativeDashboard
    | ProfilePage
    | Redirect(to: string)
    | NothingRendered

  /** The state right after the app mounts: no user, and whatever an earlier visit stored. */
  function Mount(stored: Option<string>): (r: AppState)
    ensures r.user.None? && r.stored == stored
  {
    AppState(None, stored)
  }

  /** `logout`: forget the user and remove the storage slot. */
  function Logout(st: AppState): (r: AppState)
    ensures r.user.None? && r.stored.None?
  {
    AppState(None, None)
  }

  /** `handleLogin(u)`: `u` becomes the current user and is written to the slot. */
  function HandleLogin(st: AppState, u: User): (r: AppState)
    ensures r.user == Some(u)
    ensures r.stored.Some? && Codec.Parse(r.stored.value) == Some(u)
  {
    Codec.ParseSerialize(u);
    AppState(Some(u), Some(Codec.Serialize(u)))
  }

  /**
   * The restore effect: an absent or empty slot changes nothing; a record that parses
   * becomes the current user as it is, role included; one that does not parse is
   * removed from the slot and the user stays signed out.
   */
  function Restore(st: AppState): (r: AppState)
    ensures r.user != st.user ==>
      st.stored.Some? && st.stored.value != "" && Codec.Parse(st.stored.value) == r.user
    ensures r.stored != st.stored ==>
      r.stored == None && st.stored.Some? && st.stored.value != "" && Codec.Parse(st.stored.value) == None
    ensures st.stored.Some? && st.stored.value != "" && Codec.Parse(st.stored.value).Some? ==>
      r == st.(user := Codec.Parse(st.stored.value))
    ensures st.stored.Some? && st.stored.value != "" && Codec.Parse(st.stored.value).None? ==>
      r == st.(stored := None)
    ensures st.stored.None? || st.stored == Some("") ==> r == st
  {
    match st.stored
    case None => st
    case Some(text) =>
      if text == "" then st
      else
        match Codec.Parse(text)
        case Some(u) => st.(user := Some(u))
        case None => st.(stored := None)
  }

  /** A fresh start of the app: mount, then run the restore effect. */
  function Boot(stored: Option<string>): (r: AppState)
    ensures r.user == (if stored.Some? && stored.value != "" then Codec.Parse(stored.value) else None)
    ensures r.stored == (if stored.Some? && stored.value != "" && Codec.Parse(stored.value).None? then None else stored)
  {
    Restore(Mount(stored))
  }

  /** The user in memory is the one the slot holds, whenever there is a user. */
  predicate Mirrored(st: AppState) {
    st.user.Some? ==> st.stored.Some? && Codec.Parse(st.stored.value) == st.user
  }

  /** The dashboard each of the four roles is sent to. */
  function RoleDashboard(r: Role): (s: Screen)
    ensures s.ProducerDashboard? || s.LineProducerDashboard? || s.ExecutorDashboard? || s.CreativeDashboard?
  {
    match r
    case ProducerCeo => ProducerDashboard
    case LineProducer => LineProducerDashboard
    case UnitManager => ExecutorDashboard
    case VfxSupervisor => CreativeDashboard
  }

  /** `getDashboardComponent`: a switch over the role string with a redirect as its default. */
  function Dashboard(role: string): (s: Screen)
    ensures ParseRole(role).Some? ==> s == RoleDashboard(ParseRole(role).value)
    ensures ParseRole(role).None? ==> s == Redirect("/login")
  {
    if role == "Producer/CEO" then ProducerDashboard
    else if role == "Line Producer" then LineProducerDashboard
    else if role == "1st AD/Unit Manager" then ExecutorDashboard
    else if role == "VFX Supervisor/Director" then CreativeDashboard
    else Redirect("/login")
  }

  /** The route table, with the guards on `/dashboard` and `/profile` and the catch-all. */
  function Route(st: AppState, path: string): (s: Screen)
    ensures (path == "/dashboard" || path == "/profile") && st.user.None? ==> s == Redirect("/login")
    ensures path == "/dashboard" && st.user.Some? ==> s == Dashboard(st.user.value.role)
    ensures path == "/profile" && st.user.Some? ==> s == ProfilePage
    ensures !KnownPath(path) ==> s == Redirect(if st.user.Some? then "/dashboard" else "/")
    ensures s.Redirect? ==> s.to == "/" || s.to == "/login" || s.to == "/dashboard"
  {
    if path == "/" then Landing
    else if path == "/signup" then SignupPage
    else if path == "/login" then LoginPage
    else if path == "/logout" then Redirect("/")
    else if path == "/dashboard" then
      (match st.user
       case Some(u) => Dashboard(u.role)
       case None => Redirect("/login"))
    else if path == "/profile" then
      (match st.user
       case Some(_) => ProfilePage
       case None => Redirect("/login"))
    else Redirect(if st.user.Some? then "/dashboard" else "/")
  }

  predicate KnownPath(path: string) {
    path in {"/", "/signup", "/login", "/logout", "/dashboard", "/profile"}
  }

  /**
   * A reload of the page at `path`. The first render runs before any effect, so the
   * user is still `null`: a guarded path renders `<Navigate to="/login" />`. React runs
   * that child's effect, the navigation, before App's own restore effect. So the page
   * has already moved on when the user comes back, and the restored state is then
   * rendered at the path the first render navigated to.
   */
  function Reload(stored: Option<string>, path: string): (s: Screen)
    ensures (path == "/dashboard" || path == "/profile") ==> s == LoginPage
    ensures path == "/" || path == "/logout" || !KnownPath(path) ==> s == Landing
    ensures path == "/signup" ==> s == SignupPage
    ensures path == "/login" ==> s == LoginPage
  {
    var first := Route(Mount(stored), path);
    var landed := if first.Redirect? then first.to else path;
    Route(Boot(stored), landed)
  }

  /**
   * The reload the persistence evidently aims at: the slot is read before the first
   * render (as a lazy `useState` initializer would), so the guards see the restored user.
   */
  function ReloadRestoringFirst(stored: Option<string>, path: string): (s: Screen)
    ensures path == "/dashboard" && Boot(stored).user.Some? ==> s == Dashboard(Boot(stored).user.value.role)
    ensures path == "/profile" && Boot(stored).user.Some? ==> s == ProfilePage
    ensures (path == "/dashboard" || path == "/profile") && Boot(stored).user.None? ==> s == Redirect("/login")
  {
    Route(Boot(stored), path)
  }

  /** As written: a signed-in user who reloads the dashboard is left on the login page, though the user is restored. */
  lemma ReloadAtDashboardShowsLogin(u: User)
    ensures Boot(Some(Codec.Serialize(u))).user == Some(u)
    ensures Reload(Some(Codec.Serialize(u)), "/dashboard") == LoginPage
  {
    Codec.ParseSerialize(u);
  }

  /** With the slot read before the first render, reloading the dashboard shows the user's own dashboard again. */
  lemma ReloadRestoringFirstKeepsDashboard(u: User, r: Role)
    requires u.role == RoleName(r)
    ensures ReloadRestoringFirst(Some(Codec.Serialize(u)), "/dashboard") == RoleDashboard(r)
  {
    Codec.ParseSerialize(u);
    RoleNameRoundTrip(r, u.role);
  }

  /** After a reload the slot written at login brings back exactly the same session. */
  lemma ReloadAfterLogin(st: AppState, u: User)
    ensures Boot(HandleLogin(st, u).stored) == HandleLogin(st, u)
  {
    Codec.ParseSerialize(u);
  }

  /** A second logout changes nothing, and a reload after logout finds no session. */
  lemma LogoutIdempotent(st: AppState)
    ensures Logout(Logout(st)) == Logout(st)
    ensures Boot(Logout(st).stored) == AppState(None, None)
  {
  }

  /** An absent or empty slot leaves the app signed out; a corrupt one is also removed. */
  lemma RestoreWithoutRecord(text: string)
    ensures Boot(None) == AppState(None, None)
    ensures Boot(Some("")) == AppState(None, Some(""))
    ensures text != "" && Codec.Parse(text) == None ==> Boot(Some(text)) == AppState(None, None)
  {
  }

  /**
   * The restored record is not checked against the four roles: a user with an unknown
   * role becomes current, and only the dashboard route turns it away, to `/login`.
   */
  lemma RestoreKeepsUnknownRole(u: User)
    requires ParseRole(u.role) == None
    ensures Boot(Some(Codec.Serialize(u))).user == Some(u)
    ensures Route(Boot(Some(Codec.Serialize(u))), "/dashboard") == Redirect("/login")
    ensures Route(Boot(Some(Codec.Serialize(u))), "/profile") == ProfilePage
  {
    Codec.ParseSerialize(u);
  }

  /** Login, logout and a fresh start each leave memory and storage in agreement. */
  lemma MirrorKept(st: AppState, u: User, stored: Option<string>)
    ensures Mirrored(HandleLogin(st, u))
    ensures Mirrored(Logout(st))
    ensures Mirrored(Boot(stored))
  {
  }

  /** The four roles reach four different dashboards, and no other string reaches any. */
  lemma DispatchIsTotal(r1: Role, r2: Role, role: string)
    ensures Dashboard(RoleName(r1)) == RoleDashboard(r1)
    ensures r1 != r2 ==> RoleDashboard(r1) != RoleDashboard(r2)
    ensures Dashboard(role).Redirect? <==> ParseRole(role) == None
  {
    RoleNameRoundTrip(r1, role);
  }

  /** Without a user the protected routes redirect to `/login`; with one they render content. */
  lemma GuardedRoutes(st: AppState)
    ensures st.user.None? ==> Route(st, "/dashboard") == Redirect("/login") && Route(st, "/profile") == Redirect("/login")
    ensures st.user.Some? ==> Route(st, "/profile") == ProfilePage
    ensures st.user.Some? && ParseRole(st.user.value.role).Some? ==> !Route(st, "/dashboard").Redirect?
  {
  }

  /** An unknown path goes to the dashboard when signed in and to the landing page otherwise. */
  lemma CatchAll(st: AppState, path: string)
    requires !KnownPath(path)
    ensures Route(st, path) == Redirect(if st.user.Some? then "/dashboard" else "/")
  {
  }
}
