/** The registration page: its validators, the checks before the call to
    `register`, the payload it sends, and the message a failed registration
    shows. */
module Register {
  import opened Models
  import opened Forms
  import opened AuthSession

  /** The values of the registration form's controls. */
  datatype RegisterFormValue = RegisterFormValue(
    firstName: string,
    lastName: string,
    email: string,
    password: string,
    confirmPassword: string,
    role: string,
    phone: string,
    address: string)

  const InitialForm: RegisterFormValue := RegisterFormValue("", "", "", "", "", "PATIENT", "", "")

  /** The body of `POST /api/auth/register`: the form without the
      confirmation, phone and address sent as typed. */
  datatype RegisterRequest = RegisterRequest(
    firstName: string,
    lastName: string,
    email: string,
    password: string,
    role: string,
    phone: string,
    address: string)

  function RequestOf(v: RegisterFormValue): RegisterRequest
  {
    RegisterRequest(v.firstName, v.lastName, v.email, v.password, v.role, v.phone, v.address)
  }

  const DefaultErrorMessage: string := "Une erreur est survenue lors de l'inscription"
  const EmailTakenMessage: string := "Cet email est déjà utilisé"
  const RegisteredMessage: string := "Votre compte a été créé avec succès. Vous pouvez maintenant vous connecter."

  /** `passwordMatchValidator`: no error exactly when the two passwords are
      equal, and the only error it can report is the mismatch. */
  function PasswordMatchValidator(v: RegisterFormValue): (errors: set<string>)
    ensures errors == {} <==> v.password == v.confirmPassword
    ensures errors <= {MismatchKey}
  {
    if v.password == v.confirmPassword then {} else {MismatchKey}
  }

  /** The controls' own validators; `emailOk` is the verdict of Angular's
      e-mail pattern on the address typed. */
  predicate ControlsValid(v: RegisterFormValue, emailOk: bool)
  {
    RequiredMinLength(v.firstName, 2) && RequiredMinLength(v.lastName, 2) &&
    v.email != "" && emailOk &&
    RequiredMinLength(v.password, 6) && v.confirmPassword != "" && v.role != ""
  }

  /** The guard of `onSubmit` as written: the group validator's error makes
      the form invalid, so differing passwords stop the submission silently,
      like any other invalid control, and the password alert is never shown. */
  function SubmitCheck(v: RegisterFormValue, emailOk: bool): (g: SubmitGuard)
    ensures g == Proceed <==> ControlsValid(v, emailOk) && v.password == v.confirmPassword
    ensures g == Blocked <==> !ControlsValid(v, emailOk) || v.password != v.confirmPassword
    ensures g != MismatchAlert
  {
    GuardAsWritten(ControlsValid(v, emailOk), PasswordMatchValidator(v) != {})
  }

  /** The message of a failed registration: the server's own message for a
      400 that carries a body (the default when it has none), the e-mail
      message for a 409, and the default for everything else. */
  function RegisterErrorMessage(e: HttpError): (m: string)
    ensures e.status == 400 && e.body.Some? && Truthy(e.body.value.message) ==> m == e.body.value.message.value
    ensures e.status == 400 && e.body.Some? && !Truthy(e.body.value.message) ==> m == DefaultErrorMessage
    ensures e.status == 409 ==> m == EmailTakenMessage
    ensures e.status != 409 && !(e.status == 400 && e.body.Some?) ==> m == DefaultErrorMessage
    ensures m != ""
  {
    if e.status == 400 && e.body.Some? then
      (if Truthy(e.body.value.message) then e.body.value.message.value else DefaultErrorMessage)
    else if e.status == 409 then EmailTakenMessage
    else DefaultErrorMessage
  }

  /** A 400 without a body reads like any unexplained failure, and the
      e-mail message is kept for the 409 alone. */
  lemma ErrorMessageCases(body: Option<ErrorBody>, status: int)
    ensures RegisterErrorMessage(HttpError(400, None)) == RegisterErrorMessage(HttpError(500, body))
    ensures RegisterErrorMessage(HttpError(status, body)) == EmailTakenMessage ==>
              status == 409 || (status == 400 && body.Some? && body.value.message == Some(EmailTakenMessage))
  {
  }

  /** How the `register` call ended. */
  datatype RegisterOutcome = Registered | RegisterFailed(error: HttpError)

  class RegisterComponent {
    var form: RegisterFormValue
    var loading: bool
    var submitted: bool

    constructor ()
      ensures form == InitialForm && !loading && !submitted
    {
      form := InitialForm;
      loading := false;
      submitted := false;
    }

    /** `onSubmit`: `sent` is the body handed to `register`, if it was
        called; a success goes on to the login page once its alert closes. */
    method OnSubmit(emailOk: bool, outcome: RegisterOutcome)
      returns (sent: Option<RegisterRequest>, alert: Option<string>, navigateTo: Option<string>)
      modifies this`loading, this`submitted
      ensures submitted
      ensures sent.Some? <==> ControlsValid(form, emailOk) && form.password == form.confirmPassword
      ensures sent.Some? ==> sent.value == RequestOf(form)
      ensures sent.None? ==> alert.None? && navigateTo.None? && loading == old(loading)
      ensures sent.Some? && outcome.Registered? ==>
                alert == Some(RegisteredMessage) && navigateTo == Some(LoginPath) && loading
      ensures sent.Some? && outcome.RegisterFailed? ==>
                alert == Some(RegisterErrorMessage(outcome.error)) && navigateTo.None? && !loading
    {
      submitted := true;
      sent, alert, navigateTo := None, None, None;
      match SubmitCheck(form, emailOk)
      case Blocked =>
      case MismatchAlert =>
        assert false;
      case Proceed =>
        loading := true;
        sent := Some(RequestOf(form));
        match outcome
        case Registered =>
          alert := Some(RegisteredMessage);
          navigateTo := Some(LoginPath);
        case RegisterFailed(error) =>
          alert := Some(RegisterErrorMessage(error));
          loading := false;
    }
  }
}
