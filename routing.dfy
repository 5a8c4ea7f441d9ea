/**
 * The application's routes and their guard (src/App.tsx): `RequireAuth` renders a page only for
 * an authenticated ZKTeco session whose user has the route's role, and otherwise redirects to
 * the login page.
 */
module Routing {
  import opened Wrappers
  import opened ZKTeco

  /** The roles a guard can require: the user roles other than `staff`. */
  type GuardRole = r: Role | r != StaffRole witness AdminRole

  /** What `RequireAuth` returns: its children, or a redirect carrying an optional `from`. */
  datatype Screen = Render | Redirect(to: string, from: Option<string>)

  const LoginPath: string := "/login"

  /**
   * `RequireAuth`: signed out, redirect to the login page remembering where the user was;
   * signed in without the role (or without a user), redirect without it; else render.
   */
  function RequireAuth(auth: AuthState, role: GuardRole, location: string): (s: Screen)
    ensures s == Render <==> auth.isAuthenticated && auth.user.Some? && auth.user.value.role == role
    ensures !auth.isAuthenticated ==> s == Redirect(LoginPath, Some(location))
    ensures auth.isAuthenticated && s != Render ==> s == Redirect(LoginPath, None)
  {
    if !auth.isAuthenticated then Redirect(LoginPath, Some(location))
    else if auth.user.None? || auth.user.value.role != role then Redirect(LoginPath, None)
    else Render
  }

  datatype Page = LoginPage | AdminPage | ManagementPage | GatePage | GateTerminalPage
                | ZKTecoPage | DashboardPage | FaceTestPage

  /** A route table entry: an open page, a guarded page, or the catch-all redirect. */
  datatype Route = Open(page: Page) | Guarded(role: GuardRole, page: Page) | Fallback

  /** The route table, path by path, with `*` for every other path. */
  function RouteFor(path: string): (r: Route)
    ensures r.Open? <==> path == "/login" || path == "/face-test"
    ensures r.Guarded? && r.role == AdminRole <==> path == "/admin" || path == "/zkteco" || path == "/dashboard"
    ensures r.Guarded? && r.role == ManagementRole <==> path == "/management"
    ensures r.Guarded? && r.role == GateRole <==> path == "/gate" || path == "/gate-terminal"
    ensures r.Open? ==> (r.page == LoginPage <==> path == "/login")
    ensures r.Open? ==> (r.page == FaceTestPage <==> path == "/face-test")
    ensures r.Guarded? ==> (r.page == AdminPage <==> path == "/admin")
    ensures r.Guarded? ==> (r.page == ManagementPage <==> path == "/management")
    ensures r.Guarded? ==> (r.page == GatePage <==> path == "/gate")
    ensures r.Guarded? ==> (r.page == GateTerminalPage <==> path == "/gate-terminal")
    ensures r.Guarded? ==> (r.page == ZKTecoPage <==> path == "/zkteco")
    ensures r.Guarded? ==> (r.page == DashboardPage <==> path == "/dashboard")
  {
    if path == "/login" then Open(LoginPage)
    else if path == "/admin" then Guarded(AdminRole, AdminPage)
    else if path == "/management" then Guarded(ManagementRole, ManagementPage)
    else if path == "/gate" then Guarded(GateRole, GatePage)
    else if path == "/gate-terminal" then Guarded(GateRole, GateTerminalPage)
    else if path == "/zkteco" then Guarded(AdminRole, ZKTecoPage)
    else if path == "/dashboard" then Guarded(AdminRole, DashboardPage)
    else if path == "/face-test" then Open(FaceTestPage)
    else Fallback
  }

  /** What the browser ends up showing for a path. */
  datatype View = Shown(page: Page) | Redirected(to: string, from: Option<string>)

  /** Resolving a path against the current session. */
  function Resolve(path: string, auth: AuthState): (v: View)
    ensures v.Shown? <==> RouteFor(path).Open? ||
                          (RouteFor(path).Guarded? && auth.isAuthenticated && auth.user.Some?
                           && auth.user.value.role == RouteFor(path).role)
    ensures v.Redirected? ==> v.to == LoginPath
    ensures v.Shown? ==> !RouteFor(path).Fallback? && v.page == RouteFor(path).page
    ensures RouteFor(path).Guarded? && !auth.isAuthenticated ==> v == Redirected(LoginPath, Some(path))
    ensures RouteFor(path).Guarded? && auth.isAuthenticated && v.Redirected? ==> v == Redirected(LoginPath, None)
    ensures RouteFor(path).Fallback? ==> v == Redirected(LoginPath, None)
  {
    match RouteFor(path)
    case Open(page) => Shown(page)
    case Guarded(role, page) =>
      (match RequireAuth(auth, role, path)
       case Render => Shown(page)
       case Redirect(to, from) => Redirected(to, from))
    case Fallback => Redirected(LoginPath, None)
  }

  /** A `staff` user never gets past any guard. */
  lemma StaffNeverPassesGuard(path: string, auth: AuthState)
    requires auth.user.Some? && auth.user.value.role == StaffRole
    ensures RouteFor(path).Guarded? ==> Resolve(path, auth).Redirected?
  {
  }

  /** Signed out, only the login page and the face test are reachable. */
  lemma SignedOutSeesOnlyOpenPages(path: string)
    ensures Resolve(path, DefaultState).Shown? <==> path == "/login" || path == "/face-test"
  {
  }
}
