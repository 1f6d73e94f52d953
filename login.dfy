/** The login page: where a role is sent after login, which message a failed
    login shows, and the `submitted`/`loading` flags of `onSubmit`. */
module Login {
  import opened Models
  import opened AuthSession

  const AdminDashboardPath: string := "/admin/dashboard"
  const DoctorDashboardPath: string := "/doctor/dashboard"
  const PatientDashboardPath: string := "/patient/dashboard"
  const RootPath: string := "/"

  const BadCredentialsMessage: string := "Email ou mot de passe incorrect"
  const ServerUnreachableMessage: string := "Impossible de se connecter au serveur. Vérifiez que le backend est démarré."

  /** `redirectBasedOnRole`: each known role has its own dashboard, every
      other role (and no role) goes to the root. */
  function RedirectBasedOnRole(role: Option<string>): (p: string)
    ensures role == Some("ADMIN") <==> p == AdminDashboardPath
    ensures role == Some("DOCTOR") <==> p == DoctorDashboardPath
    ensures role == Some("PATIENT") <==> p == PatientDashboardPath
    ensures role !in {Some("ADMIN"), Some("DOCTOR"), Some("PATIENT")} <==> p == RootPath
  {
    match role
    case Some("ADMIN") => AdminDashboardPath
    case Some("DOCTOR") => DoctorDashboardPath
    case Some("PATIENT") => PatientDashboardPath
    case _ => RootPath
  }

  /** The message shown for a failed login: an unreachable server wins over
      anything the body says; otherwise the server's own non-empty message,
      else the bad-credentials default. It is never empty. */
  function LoginErrorMessage(e: HttpError): (m: string)
    ensures e.status == 0 ==> m == ServerUnreachableMessage
    ensures e.status != 0 && e.body.Some? && Truthy(e.body.value.message) ==> m == e.body.value.message.value
    ensures e.status != 0 && !(e.body.Some? && Truthy(e.body.value.message)) ==> m == BadCredentialsMessage
    ensures m != ""
  {
    if e.status == 0 then ServerUnreachableMessage
    else if e.body.Some? && Truthy(e.body.value.message) then e.body.value.message.value
    else BadCredentialsMessage
  }

  /** The `returnUrl` query parameter, `'/'` when it is absent or empty. */
  function ReturnUrl(param: Option<string>): (r: string)
    ensures Truthy(param) ==> r == param.value
    ensures !Truthy(param) ==> r == RootPath
    ensures r != ""
  {
    if Truthy(param) then param.value else RootPath
  }

  /** How the `POST /api/auth/login` call ended. */
  datatype LoginOutcome = LoggedIn(response: LoginResponse) | LoginFailed(error: HttpError)

  class LoginComponent {
    var loading: bool
    var submitted: bool
    var returnUrl: string

    constructor ()
      ensures !loading && !submitted && returnUrl == ""
    {
      loading := false;
      submitted := false;
      returnUrl := "";
    }

    /** Reads `returnUrl`, and leaves the page at once for a session that
        already holds a token. */
    method NgOnInit(returnUrlParam: Option<string>, auth: AuthService) returns (navigateTo: Option<string>)
      modifies this
      ensures returnUrl == ReturnUrl(returnUrlParam)
      ensures loading == old(loading) && submitted == old(submitted)
      ensures auth.IsLoggedIn() ==> navigateTo == Some(RedirectBasedOnRole(auth.GetUserRole()))
      ensures !auth.IsLoggedIn() ==> navigateTo == None
    {
      returnUrl := ReturnUrl(returnUrlParam);
      navigateTo := None;
      if auth.IsLoggedIn() {
        navigateTo := Some(RedirectBasedOnRole(auth.GetUserRole()));
      }
    }

    /** Submits the form. `formValid` is the form's validity; `outcome` is
        how the login call ended, used only when the call is made. The
        session is not written by a successful login, so the redirect reads
        the role the session already had. */
    method OnSubmit(formValid: bool, auth: AuthService, outcome: LoginOutcome)
      returns (loginCalled: bool, navigateTo: Option<string>, alert: Option<string>)
      modifies this
      ensures submitted && returnUrl == old(returnUrl)
      ensures loginCalled <==> formValid
      ensures !formValid ==> loading == old(loading) && navigateTo == None && alert == None
      ensures formValid && outcome.LoggedIn? ==>
                loading && navigateTo == Some(RedirectBasedOnRole(auth.GetUserRole())) && alert == None
      ensures formValid && outcome.LoginFailed? ==>
                !loading && navigateTo == None && alert == Some(LoginErrorMessage(outcome.error))
    {
      submitted := true;
      loginCalled := false;
      navigateTo := None;
      alert := None;
      if !formValid {
        return;
      }
      loading := true;
      loginCalled := true;
      match outcome
      case LoggedIn(_) =>
        navigateTo := Some(RedirectBasedOnRole(auth.GetUserRole()));
      case LoginFailed(error) =>
        alert := Some(LoginErrorMessage(error));
        loading := false;
    }
  }
}
