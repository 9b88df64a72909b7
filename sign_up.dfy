/**
 * The sign-up screen.  It keeps no state of its own: on submit,
 * react-hook-form checks the three fields and calls `handleSignUp` only if
 * every rule passes, and `handleSignUp` decides whether to navigate.
 * `signUpNewUser` belongs to the backend; how it resolves is given from
 * outside.
 */
module SignUp {
  import opened Wrappers
  import opened Validation

  /** The verdicts react-hook-form records for the three fields on submit. */
  datatype SignUpVerdicts = SignUpVerdicts(email: Verdict, password: Verdict, confirm: Verdict) {
    predicate AllPass() { email == Pass && password == Pass && confirm == Pass }
  }

  /**
   * The three field rules together pass exactly when the email matches the
   * pattern, the password has at least six code units, and the confirmation
   * repeats the password.
   */
  function CheckFields(email: string, password: string, confirm: string): (v: SignUpVerdicts)
    ensures v.AllPass() <==>
              MatchesEmailPattern(email) && Utf16Length(password) >= MinPasswordLength && confirm == password
    ensures v.AllPass() ==> confirm != ""
  {
    SignUpVerdicts(EmailRule(email), PasswordRule(password), ConfirmPasswordRule(confirm, password))
  }

  /**
   * What `signUpNewUser` resolves to: `undefined`, or an object whose
   * `success` is truthy or not.
   */
  datatype SignUpResult = Undefined | Result(success: bool)

  /** The awaited call either resolves or throws. */
  datatype SignUpOutcome = Resolved(result: SignUpResult) | Threw

  const DashboardPath := "/dashboard"

  /**
   * `handleSignUp` after its `await`: navigate to the dashboard on success.
   * Reading `success` of `undefined` throws, and the `catch` only logs, as it
   * does for a thrown call; no message is shown on any failure.
   */
  function HandleSignUp(o: SignUpOutcome): (navigateTo: Option<string>) {
    match o
    case Resolved(Result(success)) => if success then Some(DashboardPath) else None
    case Resolved(Undefined) => None
    case Threw => None
  }

  /** A submission: stopped by the field rules, or handled with a navigation decision. */
  datatype Submission = Blocked(verdicts: SignUpVerdicts) | Handled(navigateTo: Option<string>)

  /** Submitting the form: check the fields, then run `handleSignUp` only if all pass. */
  function SubmitSignUp(email: string, password: string, confirm: string, o: SignUpOutcome): (s: Submission)
    ensures s.Handled? <==>
              MatchesEmailPattern(email) && Utf16Length(password) >= MinPasswordLength && confirm == password
    ensures s.Blocked? ==> s.verdicts == CheckFields(email, password, confirm) && !s.verdicts.AllPass()
  {
    var v := CheckFields(email, password, confirm);
    if v.AllPass() then Handled(HandleSignUp(o)) else Blocked(v)
  }

  /**
   * The screen navigates, and only ever to the dashboard, exactly when the
   * fields pass and the call resolves to a result with truthy `success`.
   */
  lemma NavigatesIffValidAndSuccess(email: string, password: string, confirm: string, o: SignUpOutcome)
    ensures var s := SubmitSignUp(email, password, confirm, o);
      (s.Handled? && s.navigateTo.Some?) <==>
        (CheckFields(email, password, confirm).AllPass() && o == Resolved(Result(true)))
    ensures var s := SubmitSignUp(email, password, confirm, o);
      s.Handled? && s.navigateTo.Some? ==> s.navigateTo.value == DashboardPath
  {
  }

  /**
   * A blocked submission reports, for each failing field, the message of
   * the first rule it breaks.
   */
  lemma BlockedMessages(email: string, password: string, confirm: string, o: SignUpOutcome)
    requires SubmitSignUp(email, password, confirm, o).Blocked?
    ensures var v := SubmitSignUp(email, password, confirm, o).verdicts;
      (email == "" ==> v.email == Fail(EmailRequired)) &&
      (email != "" && !MatchesEmailPattern(email) ==> v.email == Fail(InvalidEmail)) &&
      (password == "" ==> v.password == Fail(PasswordRequired)) &&
      (password != "" && Utf16Length(password) < MinPasswordLength ==> v.password == Fail(PasswordTooShort)) &&
      (confirm == "" ==> v.confirm == Fail(ConfirmRequired)) &&
      (confirm != "" && confirm != password ==> v.confirm == Fail(PasswordsDiffer))
  {
  }
}
