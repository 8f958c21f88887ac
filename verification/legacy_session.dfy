/**
 * The session core of the older client build (client/src/App.tsx). Login and logout
 * are the same transitions as in the current build; restore has no error handling and
 * the dashboard choice is binary.
 */
module LegacySession {
  import opened Common
  import opened Users
  import Codec
  import opened Session

  /** The restore effect either finishes or throws out of the effect. */
  datatype Startup = Started(state: AppState) | Crashed

  /** Restore without `try`: a slot that does not parse makes the effect throw. */
  function Restore(st: AppState): (r: Startup)
    ensures r.Crashed? <==> st.stored.Some? && st.stored.value != "" && Codec.Parse(st.stored.value) == None
    ensures r.Started? ==> r.state.stored == st.stored
  {
    match st.stored
    case None => Started(st)
    case Some(text) =>
      if text == "" then Started(st)
      else
        match Codec.Parse(text)
        case Some(u) => Started(st.(user := Some(u)))
        case None => Crashed
  }

  /** A fresh start of the older app: mount, then the unguarded restore effect. */
  function Boot(stored: Option<string>): (r: Startup)
    ensures r.Crashed? <==> stored.Some? && stored.value != "" && Codec.Parse(stored.value).None?
    ensures r.Started? ==> r.state.stored == stored
    ensures r.Started? ==> r.state.user == (if stored.Some? && stored.value != "" then Codec.Parse(stored.value) else None)
  {
    Restore(Mount(stored))
  }

  /** The dashboard choice: the producer view for `Producer/CEO`, the line producer view for every other role. */
  function Dashboard(role: string): (s: Screen)
    ensures s == ProducerDashboard || s == LineProducerDashboard
    ensures s == ProducerDashboard <==> ParseRole(role) == Some(ProducerCeo)
  {
    if role == "Producer/CEO" then ProducerDashboard else LineProducerDashboard
  }

  /** The route table of the older build: no catch-all, so an unknown path renders nothing. */
  function Route(st: AppState, path: string): (s: Screen)
    ensures (path == "/dashboard" || path == "/profile") && st.user.None? ==> s == Redirect("/login")
    ensures path == "/dashboard" && st.user.Some? ==> s == Dashboard(st.user.value.role)
    ensures path == "/profile" && st.user.Some? ==> s == ProfilePage
    ensures path == "/" ==> s == Landing
    ensures path == "/signup" ==> s == SignupPage
    ensures path == "/login" ==> s == LoginPage
    ensures path == "/logout" ==> s == Redirect("/")
    ensures !KnownPath(path) ==> s == NothingRendered
  {
    if path == "/" then Landing
    else if path == "/signup" then SignupPage
    else if path == "/login" then LoginPage
    else if path == "/logout" then Redirect("/")
    else if path == "/dashboard" then
      (match st.user
       case Some(u) => Dashboard(u.role)
       case None => Redirect("/login"))
    else if path == "/profile" then
      (match st.user
       case Some(_) => ProfilePage
       case None => Redirect("/login"))
    else NothingRendered
  }

  /** A reload after login starts with the same user and slot. */
  lemma ReloadAfterLogin(st: AppState, u: User)
    ensures Boot(HandleLogin(st, u).stored) == Started(HandleLogin(st, u))
  {
    Codec.ParseSerialize(u);
  }

  /** After logout a reload starts signed out, and the protected routes send to `/login`. */
  lemma ReloadAfterLogout(st: AppState)
    ensures Boot(Logout(st).stored) == Started(AppState(None, None))
    ensures Route(Logout(st), "/dashboard") == Redirect("/login")
    ensures Route(Logout(st), "/profile") == Redirect("/login")
  {
  }

  /** Where the current build heals a corrupt slot, the older one fails at startup. */
  lemma CorruptSlotCrashes(text: string)
    requires text != "" && Codec.Parse(text) == None
    ensures Boot(Some(text)) == Crashed
    ensures Session.Boot(Some(text)) == AppState(None, None)
  {
  }

  /** Every role other than `Producer/CEO`, known or not, lands on the line producer dashboard. */
  lemma BinaryDispatch(r: Role, role: string)
    ensures r != ProducerCeo ==> Dashboard(RoleName(r)) == LineProducerDashboard
    ensures ParseRole(role) == None ==> Dashboard(role) == LineProducerDashboard
    ensures ParseRole(role) == None ==> Session.Dashboard(role) == Redirect("/login")
  {
    RoleNameRoundTrip(r, role);
  }

  /** Unknown paths render nothing, signed in or not. */
  lemma NoCatchAll(st: AppState, path: string)
    requires !KnownPath(path)
    ensures Route(st, path) == NothingRendered
  {
  }
}
