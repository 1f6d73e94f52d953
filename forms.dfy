/** What the two account forms (registration and the administrator's user
    form) share of Angular's reactive forms: the text validators, the
    password-match key and the two checks `onSubmit` makes before it calls a
    service. */
module Forms {
  /** `Validators.required` with `Validators.minLength(n)` on a text control:
      the empty text fails `required`, any other text must reach `n`. */
  predicate RequiredMinLength(s: string, n: nat)
  {
    s != "" && |s| >= n
  }

  const MismatchKey: string := "mismatch"
  const MismatchMessage: string := "Les mots de passe ne correspondent pas"

  /** The outcome of the checks at the head of `onSubmit`: stop with the
      form's errors, stop with the password alert, or go on to the call. */
  datatype SubmitGuard = Blocked | MismatchAlert | Proceed

  /** The checks as written: `form.invalid` first, then
      `form.hasError('mismatch')`. A group whose validator reports the
      mismatch is itself invalid, so the first test already catches it. */
  function GuardAsWritten(controlsValid: bool, mismatch: bool): (g: SubmitGuard)
    ensures g == Proceed <==> controlsValid && !mismatch
    ensures g != MismatchAlert
  {
    var formInvalid := !controlsValid || mismatch;
    if formInvalid then Blocked
    else if mismatch then MismatchAlert
    else Proceed
  }

  /** A form whose fields are all valid but whose passwords differ never
      reaches the password alert as written. */
  lemma MismatchAlertUnreachable()
    ensures GuardAsWritten(true, true) == Blocked
  {
  }

  /** The checks as evidently meant: the password match first, so that a
      mismatch gets its own alert, then the rest of the form. */
  function Guard(controlsValid: bool, mismatch: bool): (g: SubmitGuard)
    ensures g == MismatchAlert <==> mismatch
    ensures g == Blocked <==> !mismatch && !controlsValid
    ensures g == Proceed <==> !mismatch && controlsValid
  {
    if mismatch then MismatchAlert
    else if !controlsValid then Blocked
    else Proceed
  }

  /** The correction changes only which alert is shown: both versions let
      exactly the same forms through to the service. */
  lemma GuardsAgreeOnProceed(controlsValid: bool, mismatch: bool)
    ensures Guard(controlsValid, mismatch) == Proceed <==> GuardAsWritten(controlsValid, mismatch) == Proceed
  {
  }
}
