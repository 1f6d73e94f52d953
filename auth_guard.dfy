/** `AuthGuard.canActivate`: a decision over the session's login state and
    role, the route's required role and the requested URL. It admits the
    navigation, or refuses it and names where the tab is sent instead. */
module AuthGuard {
  import opened Models
  import opened AuthSession

  /** A `router.navigate` call: a path and an optional `returnUrl` query
      parameter. */
  datatype Navigation = Navigation(path: string, returnUrl: Option<string>)

  datatype Decision = Decision(admit: bool, navigate: Option<Navigation>)

  /** Where a logged-in user whose role does not fit the route is sent. */
  function RoleHome(role: Option<string>): (p: string)
    ensures role == Some("ADMIN") <==> p == "/admin"
    ensures role == Some("DOCTOR") <==> p == "/doctor"
    ensures role == Some("PATIENT") <==> p == "/patient"
    ensures role !in {Some("ADMIN"), Some("DOCTOR"), Some("PATIENT")} <==> p == LoginPath
  {
    match role
    case Some("ADMIN") => "/admin"
    case Some("DOCTOR") => "/doctor"
    case Some("PATIENT") => "/patient"
    case _ => LoginPath
  }

  /** `canActivate` for a route whose `data.role` is `requiredRole`, asked
      for `url`. Only a truthy required role is checked. */
  function CanActivate(auth: AuthService, requiredRole: Option<string>, url: string): (d: Decision)
    reads auth
    ensures d.admit <==> auth.IsLoggedIn() && (!Truthy(requiredRole) || auth.GetUserRole() == requiredRole)
    ensures d.admit ==> d.navigate == None
    ensures !auth.IsLoggedIn() ==> d.navigate == Some(Navigation(LoginPath, Some(url)))
    ensures auth.IsLoggedIn() && !d.admit ==> d.navigate == Some(Navigation(RoleHome(auth.GetUserRole()), None))
  {
    if auth.IsLoggedIn() then
      var userRole := auth.GetUserRole();
      if Truthy(requiredRole) && userRole != requiredRole then
        Decision(false, Some(Navigation(RoleHome(userRole), None)))
      else
        Decision(true, None)
    else
      Decision(false, Some(Navigation(LoginPath, Some(url))))
  }

  /** Without a token the guard refuses whatever role is cached, and sends
      the tab to the login page carrying the requested URL back. */
  lemma NoTokenAlwaysToLogin(auth: AuthService, requiredRole: Option<string>, url: string)
    requires !HasToken(auth.storage)
    ensures !CanActivate(auth, requiredRole, url).admit
    ensures CanActivate(auth, requiredRole, url).navigate.value.returnUrl == Some(url)
  {
  }

  /** On a role mismatch the redirect depends on the user's role alone: two
      refused requests of the same session for any routes and URLs go to the
      same place, and never carry a `returnUrl`. */
  lemma MismatchRedirectDependsOnlyOnRole(auth: AuthService, required1: Option<string>, url1: string,
                                          required2: Option<string>, url2: string)
    requires auth.IsLoggedIn()
    requires !CanActivate(auth, required1, url1).admit && !CanActivate(auth, required2, url2).admit
    ensures CanActivate(auth, required1, url1).navigate == CanActivate(auth, required2, url2).navigate
    ensures CanActivate(auth, required1, url1).navigate.value.returnUrl == None
  {
  }
}
