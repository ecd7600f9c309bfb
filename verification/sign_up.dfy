/** The sign-up form's password checks and the submit handler's decisions.

The identity provider's `signUp` call is a parameter: the handler returns
whether it would call it, and the outcome it is given decides the rest.
 */
module SignUp {
  import opened Wrappers
  import opened Routes

  datatype SignUpForm = SignUpForm(name: string, email: string, password: string, confirmPassword: string)

  const MinPasswordLength: nat := 6
  const PasswordsDoNotMatch: string := "Passwords do not match"
  const PasswordTooShort: string := "Password must be at least 6 characters"
  const SignUpFailed: string := "Failed to sign up"

  /** A line of the checklist shown under the password fields. */
  datatype Requirement = Requirement(caption: string, met: bool)

  /** `passwordRequirements`: the length requirement and the match
      requirement, each with whether the current input meets it. */
  function PasswordRequirements(password: string, confirmPassword: string): (r: seq<Requirement>)
    ensures |r| == 2
    ensures r[0].caption == "At least 6 characters"
    ensures r[0].met <==> |password| >= MinPasswordLength
    ensures r[1].caption == "Passwords match"
    ensures r[1].met <==> password == confirmPassword && |password| > 0
  {
    [ Requirement("At least 6 characters", |password| >= MinPasswordLength),
      Requirement("Passwords match", password == confirmPassword && |password| > 0) ]
  }

  /** The validation branch of `handleSubmit`: the mismatch is reported
      first, the length only for matching passwords; `None` lets the form
      through. */
  function ValidationError(password: string, confirmPassword: string): (e: Option<string>)
    ensures password != confirmPassword ==> e == Some(PasswordsDoNotMatch)
    ensures password == confirmPassword && |password| < MinPasswordLength ==> e == Some(PasswordTooShort)
    ensures e.None? <==> password == confirmPassword && |password| >= MinPasswordLength
  {
    if password != confirmPassword then Some(PasswordsDoNotMatch)
    else if |password| < MinPasswordLength then Some(PasswordTooShort)
    else None
  }

  /** The checklist is all green exactly when submitting would pass
      validation. */
  lemma RequirementsMetIffValid(password: string, confirmPassword: string)
    ensures var r := PasswordRequirements(password, confirmPassword);
            (r[0].met && r[1].met) <==> ValidationError(password, confirmPassword).None?
  {
  }

  /** How the identity provider's `signUp` settled. */
  datatype SignUpOutcome = Registered(needsVerification: bool) | Failed(message: Option<string>)

  /** A call the submit handler makes. */
  datatype Effect = CallSignUp(email: string, password: string, name: string) | Navigate(route: string)

  /** The error text left on the form and the calls made, in order. */
  datatype SubmitResult = SubmitResult(error: string, effects: seq<Effect>)

  predicate CallsSignUp(effects: seq<Effect>) {
    exists i :: 0 <= i < |effects| && effects[i].CallSignUp?
  }

  /** `handleSubmit`: stops with a validation message, or calls `signUp` and
      then navigates on success or shows the thrown message on failure. The
      error shown afterwards is set by this attempt alone, since the handler
      clears it first; hence no parameter carries the previous one. */
  function HandleSubmit(form: SignUpForm, outcome: SignUpOutcome): (r: SubmitResult)
    // signUp is called exactly when validation passes, and first
    ensures CallsSignUp(r.effects) <==> ValidationError(form.password, form.confirmPassword).None?
    ensures CallsSignUp(r.effects) ==>
      r.effects[0] == CallSignUp(form.email, form.password, form.name)
    ensures ValidationError(form.password, form.confirmPassword).Some? ==>
      r.effects == [] && r.error == ValidationError(form.password, form.confirmPassword).value
    // the route depends on whether the new account must verify its email
    ensures CallsSignUp(r.effects) && outcome.Registered? ==>
      r.error == "" && r.effects[1..] ==
        [Navigate(if outcome.needsVerification then VerifyEmailRoute else DashboardRoute)]
    ensures CallsSignUp(r.effects) && outcome.Failed? ==>
      r.effects[1..] == [] && r.error == MessageOr(Threw(outcome.message), SignUpFailed)
  {
    match ValidationError(form.password, form.confirmPassword)
    case Some(message) => SubmitResult(message, [])
    case None =>
      var call := CallSignUp(form.email, form.password, form.name);
      match outcome
      case Registered(needsVerification) =>
        var effects := [call, Navigate(if needsVerification then VerifyEmailRoute else DashboardRoute)];
        assert effects[0].CallSignUp?;
        SubmitResult("", effects)
      case Failed(message) =>
        var effects := [call];
        assert effects[0].CallSignUp?;
        SubmitResult(MessageOr(Threw(message), SignUpFailed), effects)
  }

  /** A successful sign-up goes to email verification exactly when the
      provider asks for it, and to the dashboard otherwise. */
  lemma RouteAfterSignUp(form: SignUpForm, needsVerification: bool)
    requires ValidationError(form.password, form.confirmPassword).None?
    ensures var r := HandleSubmit(form, Registered(needsVerification));
            && (Navigate(VerifyEmailRoute) in r.effects <==> needsVerification)
            && (Navigate(DashboardRoute) in r.effects <==> !needsVerification)
  {
  }
}
