/** The static route table and how a URL resolves against it, together with
    the facts that tie it to the guard and to the login redirects: where each
    navigation they issue ends up. */
module AppRoutes {
  import opened Models
  import opened AuthSession
  import AuthGuard
  import Login

  /** What a route does: redirect, or show a component, possibly behind the
      guard with a required role in its `data`. */
  datatype Target =
    | RedirectTo(to: string)
    | Show(component: string, guarded: bool, role: Option<string>)

  /** A route of the table. None has children, so each matches only the whole
      path; `pathMatch: 'full'` on `''` keeps the empty route from matching
      every path, hence exact comparison. */
  datatype Route = Route(path: string, target: Target)

  const Wildcard: string := "**"

  const Routes: seq<Route> := [
    Route("", RedirectTo(LoginPath)),
    Route("auth/login", Show("LoginComponent", false, None)),
    Route("auth/register", Show("RegisterComponent", false, None)),
    Route("admin/dashboard", Show("AdminDashboardComponent", true, Some("ADMIN"))),
    Route("doctor/dashboard", Show("DoctorDashboardComponent", true, Some("DOCTOR"))),
    Route(Wildcard, RedirectTo(LoginPath))
  ]

  /** The declared paths other than the wildcard. */
  const DeclaredPaths: set<string> := {"", "auth/login", "auth/register", "admin/dashboard", "doctor/dashboard"}

  /** The router's path for a navigation target: without its leading `/`. */
  function PathOf(url: string): (p: string)
    ensures |url| > 0 && url[0] == '/' ==> url == "/" + p
    ensures !(|url| > 0 && url[0] == '/') ==> p == url
  {
    if |url| > 0 && url[0] == '/' then url[1..] else url
  }

  predicate Matches(r: Route, path: string)
  {
    r.path == Wildcard || r.path == path
  }

  /** The first route of `routes` that matches `path`, by position. */
  function MatchIndex(routes: seq<Route>, path: string): (i: int)
    ensures -1 <= i < |routes|
    ensures i == -1 <==> forall k :: 0 <= k < |routes| ==> !Matches(routes[k], path)
    ensures i >= 0 ==> Matches(routes[i], path) && forall k :: 0 <= k < i ==> !Matches(routes[k], path)
  {
    if |routes| == 0 then -1
    else if Matches(routes[0], path) then 0
    else
      var j := MatchIndex(routes[1..], path);
      if j == -1 then -1 else j + 1
  }

  /** The route the router picks for `url`. The table ends in the wildcard,
      so there always is one. */
  function Resolve(url: string): (r: Route)
    ensures r in Routes && Matches(r, PathOf(url))
    ensures PathOf(url) in DeclaredPaths ==> r.path == PathOf(url)
    ensures PathOf(url) !in DeclaredPaths ==> r.path == Wildcard
  {
    var p := PathOf(url);
    var i := MatchIndex(Routes, p);
    assert Matches(Routes[5], p);
    assert |Routes[0].path| == 0 && |Routes[1].path| == 10 && |Routes[2].path| == 13 &&
           |Routes[3].path| == 15 && |Routes[4].path| == 16 && |Routes[5].path| == 2;
    assert p in DeclaredPaths <==>
             (Routes[0].path == p || Routes[1].path == p || Routes[2].path == p ||
              Routes[3].path == p || Routes[4].path == p);
    Routes[i]
  }

  /** The URL the tab shows after navigating to `url`: a redirect is
      followed once (every redirect of the table points at a shown route). */
  function Landing(url: string): string
  {
    match Resolve(url).target
    case RedirectTo(to) => to
    case Show(_, _, _) => url
  }

  /** Only the two dashboards sit behind the guard, each with its role. */
  lemma OnlyDashboardsGuarded()
    ensures forall r :: r in Routes && r.target.Show? && r.target.guarded ==>
              (r.path == "admin/dashboard" && r.target.role == Some("ADMIN")) ||
              (r.path == "doctor/dashboard" && r.target.role == Some("DOCTOR"))
  {
  }

  /** The login page is open and demands no role. */
  lemma LoginPageOpen()
    ensures Resolve("/auth/login").target == Show("LoginComponent", false, None)
  {
  }

  /** The registration page is open and demands no role. */
  lemma RegisterPageOpen()
    ensures Resolve("/auth/register").target == Show("RegisterComponent", false, None)
  {
  }

  /** The empty path and every undeclared path redirect to the login page. */
  lemma UnmatchedGoesToLogin(url: string)
    requires PathOf(url) !in DeclaredPaths - {""}
    ensures Resolve(url).target == RedirectTo(LoginPath)
    ensures Landing(url) == LoginPath
  {
  }

  /** The guard's mismatch targets and the patient dashboard are not
      declared routes: each falls to the wildcard. */
  lemma AdminHomeUndeclared()
    ensures Resolve("/admin").path == Wildcard
  {
  }

  lemma DoctorHomeUndeclared()
    ensures Resolve("/doctor").path == Wildcard
  {
  }

  lemma PatientHomeUndeclared()
    ensures Resolve("/patient").path == Wildcard
  {
  }

  lemma PatientDashboardUndeclared()
    ensures Resolve("/patient/dashboard").path == Wildcard
  {
  }

  /** Whatever the guard refuses, the tab ends on the login page: directly
      when there is no token or an unknown role, through the wildcard when
      it sends a role to `/admin`, `/doctor` or `/patient`. */
  lemma GuardRefusalEndsAtLogin(auth: AuthService, requiredRole: Option<string>, url: string)
    requires !AuthGuard.CanActivate(auth, requiredRole, url).admit
    ensures Landing(AuthGuard.CanActivate(auth, requiredRole, url).navigate.value.path) == LoginPath
  {
    var d := AuthGuard.CanActivate(auth, requiredRole, url);
    var p := d.navigate.value.path;
    assert p in {LoginPath, "/admin", "/doctor", "/patient"};
    if p == LoginPath {
      assert PathOf(p) == "auth/login";
    } else {
      UnmatchedGoesToLogin(p);
    }
  }

  /** After login an ADMIN or DOCTOR role is sent to a guarded dashboard
      that requires exactly that role; a PATIENT (whose dashboard is not
      declared) and any other role, or none, end on the login page. */
  lemma LoginRedirectLanding(role: Option<string>)
    ensures role in {Some("ADMIN"), Some("DOCTOR")} ==>
              Resolve(Login.RedirectBasedOnRole(role)).target.Show? &&
              Resolve(Login.RedirectBasedOnRole(role)).target.guarded &&
              Resolve(Login.RedirectBasedOnRole(role)).target.role == role &&
              Landing(Login.RedirectBasedOnRole(role)) == Login.RedirectBasedOnRole(role)
    ensures role !in {Some("ADMIN"), Some("DOCTOR")} ==>
              Landing(Login.RedirectBasedOnRole(role)) == LoginPath
  {
    var url := Login.RedirectBasedOnRole(role);
    if role == Some("ADMIN") {
      assert PathOf(url) == "admin/dashboard";
    } else if role == Some("DOCTOR") {
      assert PathOf(url) == "doctor/dashboard";
    } else if role == Some("PATIENT") {
      assert PathOf(url) == "patient/dashboard";
      UnmatchedGoesToLogin(url);
    } else {
      assert PathOf(url) == "";
    }
  }

  /** A logged-in ADMIN or DOCTOR session that follows the login redirect is
      admitted by the guard of the dashboard it reaches. */
  lemma LoginRedirectAdmitted(auth: AuthService)
    requires auth.IsLoggedIn() && auth.GetUserRole() in {Some("ADMIN"), Some("DOCTOR")}
    ensures Resolve(Login.RedirectBasedOnRole(auth.GetUserRole())).target.Show?
    ensures AuthGuard.CanActivate(auth, Resolve(Login.RedirectBasedOnRole(auth.GetUserRole())).target.role,
                                  Login.RedirectBasedOnRole(auth.GetUserRole())).admit
  {
    var role := auth.GetUserRole();
    LoginRedirectLanding(role);
  }

  /** A successful login does not write the session, so from a logged-out
      session (say, right after `logout`) the redirect reads no role at all
      and the tab returns to the login page, whatever role the server sent. */
  lemma LoginAfterLogoutReturnsToLogin(auth: AuthService)
    requires auth.currentUser == None && UserRoleKey !in auth.storage
    ensures Login.RedirectBasedOnRole(auth.GetUserRole()) == Login.RootPath
    ensures Landing(Login.RedirectBasedOnRole(auth.GetUserRole())) == LoginPath
  {
    assert PathOf(Login.RootPath) == "";
  }
}
