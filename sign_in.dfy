/**
 * The sign-in screen: its field rules, what `handleSignIn` makes of the
 * result of `signInUser`, and what `handleOAuthSignIn` makes of the outcome
 * of the OAuth call.  `signInUser` and the OAuth call belong to the backend
 * and are not modelled; how they resolve is given from outside.
 */
module SignIn {
  import opened Wrappers
  import opened Validation

  /** The verdicts react-hook-form records for the two fields on submit. */
  datatype SignInVerdicts = SignInVerdicts(email: Verdict, password: Verdict) {
    predicate AllPass() { email == Pass && password == Pass }
  }

  function CheckFields(email: string, password: string): (v: SignInVerdicts)
    ensures v.AllPass() <==> MatchesEmailPattern(email) && Utf16Length(password) >= MinPasswordLength
  {
    SignInVerdicts(EmailRule(email), PasswordRule(password))
  }

  // ---------------------------------------------------------------------
  // handleSignIn
  // ---------------------------------------------------------------------

  /**
   * What `signInUser` resolves to: nothing (`null` or `undefined`), or an
   * object with a `success` flag and an `error` string, where "" stands for
   * a missing or empty (falsy) error.
   */
  datatype SignInResult = NoResult | Result(success: bool, error: string)

  /** The awaited call either resolves, or throws an error whose `message` may be empty. */
  datatype SignInOutcome = Resolved(result: SignInResult) | Rejected(errorMessage: string)

  /** What the handler does: navigate, or set the message slot. */
  datatype Reaction = Navigate(path: string) | ShowMessage(text: string)

  const DashboardPath := "/dashboard"
  const UnknownIssue := "Sign-in failed due to an unknown issue."
  const CredentialsFallback := "Sign-in failed. Please check your credentials."
  // Written as two literals: the verifier cannot look inside a single literal this long.
  const UnexpectedSignIn := "An unexpected error occurred. " + "Please try again later."

  /** JavaScript's `s || fallback` on strings: the empty string is falsy. */
  function OrElse(s: string, fallback: string): string {
    if s != "" then s else fallback
  }

  /**
   * `handleSignIn` after its `await`.  The "unknown issue" branch throws an
   * `Error` that its own `catch` turns into the message, so it is written
   * here as the catch block applied to that error's message.
   */
  function HandleSignIn(o: SignInOutcome): Reaction {
    match o
    case Resolved(Result(true, _)) => Navigate(DashboardPath)
    case Resolved(Result(false, err)) =>
      if err != "" then ShowMessage(OrElse(err, CredentialsFallback))
      else ShowMessage(OrElse(UnknownIssue, UnexpectedSignIn))
    case Resolved(NoResult) => ShowMessage(OrElse(UnknownIssue, UnexpectedSignIn))
    case Rejected(m) => ShowMessage(OrElse(m, UnexpectedSignIn))
  }

  /** The handler navigates, always to the dashboard, exactly when the result reports success. */
  lemma NavigatesIffSuccess(o: SignInOutcome)
    ensures HandleSignIn(o).Navigate? <==> o.Resolved? && o.result.Result? && o.result.success
    ensures HandleSignIn(o).Navigate? ==> HandleSignIn(o).path == DashboardPath
  {
  }

  /**
   * Every failure leaves a non-empty message; a returned error is shown as
   * it is, a result with neither success nor error shows the "unknown issue"
   * text, and a thrown error shows its own message or the generic text.
   */
  lemma FailureMessages(o: SignInOutcome)
    ensures HandleSignIn(o).ShowMessage? ==> HandleSignIn(o).text != ""
    ensures o.Resolved? && o.result.Result? && !o.result.success && o.result.error != "" ==>
              HandleSignIn(o) == ShowMessage(o.result.error)
    ensures o.Resolved? && (o.result.NoResult? || (!o.result.success && o.result.error == "")) ==>
              HandleSignIn(o) == ShowMessage(UnknownIssue)
    ensures o.Rejected? ==>
              HandleSignIn(o) == ShowMessage(if o.errorMessage == "" then UnexpectedSignIn else o.errorMessage)
  {
  }

  /**
   * The credentials fallback of the returned-error branch is dead: it can
   * only appear when some error carried that very text.
   */
  lemma CredentialsFallbackUnreachable(o: SignInOutcome)
    requires HandleSignIn(o) == ShowMessage(CredentialsFallback)
    ensures (o.Resolved? && o.result.Result? && o.result.error == CredentialsFallback) ||
            (o.Rejected? && o.errorMessage == CredentialsFallback)
  {
  }

  // ---------------------------------------------------------------------
  // handleOAuthSignIn
  // ---------------------------------------------------------------------

  datatype Provider = Google | Facebook | GitHub {
    /** The provider string the buttons pass and the messages quote. */
    function Name(): string {
      match this
      case Google => "google"
      case Facebook => "facebook"
      case GitHub => "github"
    }
  }

  /**
   * How the OAuth call settled: a returned `error` (whose `message` may be
   * empty), returned `data` without error, neither, or a thrown exception.
   */
  datatype OAuthOutcome = OAuthError(message: string) | OAuthData | OAuthNothing | OAuthThrew

  const TryLater := "Please try again later."
  // Written as two literals: the verifier cannot look inside a single literal this long.
  const CheckConnection := "An unexpected error occurred. " + "Please check your connection and try again."

  /** The message `handleOAuthSignIn` sets after its `await`; `None` when it sets none. */
  function OAuthMessage(p: Provider, o: OAuthOutcome): Option<string> {
    match o
    case OAuthError(m) => Some("Error signing in with " + p.Name() + ": " + OrElse(m, TryLater))
    case OAuthData => Some("Redirecting to " + p.Name() + " login...")
    case OAuthNothing => None
    case OAuthThrew => Some(CheckConnection)
  }

  /**
   * The message tells the outcomes apart: only an error yields a message
   * beginning "Error signing in with " followed by the provider, only data
   * one beginning "Redirecting to ", and every message that is set is
   * non-empty.
   */
  lemma OAuthMessageKinds(p: Provider, o: OAuthOutcome)
    ensures OAuthMessage(p, o).None? <==> o == OAuthNothing
    ensures OAuthMessage(p, o).Some? ==> OAuthMessage(p, o).value != ""
    ensures var pre := "Error signing in with " + p.Name();
      OAuthMessage(p, o).Some? ==>
        (o.OAuthError? <==> |OAuthMessage(p, o).value| >= |pre| && OAuthMessage(p, o).value[..|pre|] == pre)
    ensures var pre := "Redirecting to ";
      OAuthMessage(p, o).Some? ==>
        (o == OAuthData <==> |OAuthMessage(p, o).value| >= |pre| && OAuthMessage(p, o).value[..|pre|] == pre)
  {
    var pre := "Error signing in with " + p.Name();
    match o {
      case OAuthError(m) =>
        var msg := "Error signing in with " + p.Name() + ": " + OrElse(m, TryLater);
        assert msg[..|pre|] == pre;
        assert msg[0] == 'E';
      case OAuthData =>
        var msg := "Redirecting to " + p.Name() + " login...";
        assert msg[..|"Redirecting to "|] == "Redirecting to ";
        assert msg[0] == 'R';
        assert pre[0] == 'E';
      case OAuthNothing =>
      case OAuthThrew =>
        assert CheckConnection[0] != pre[0];
    }
  }

  /** A reported failure or redirect names the provider that was clicked, and no other. */
  lemma OAuthMessageNamesProvider(p: Provider, q: Provider, o: OAuthOutcome)
    requires o.OAuthError? || o == OAuthData
    requires OAuthMessage(p, o) == OAuthMessage(q, o)
    ensures p == q
  {
    var s, t := OAuthMessage(p, o).value, OAuthMessage(q, o).value;
    var k := if o.OAuthError? then |"Error signing in with "| else |"Redirecting to "|;
    assert s[k..k + 2] == p.Name()[..2];
    assert t[k..k + 2] == q.Name()[..2];
    assert Google.Name()[..2] == "go" && Facebook.Name()[..2] == "fa" && GitHub.Name()[..2] == "gi";
  }

  // ---------------------------------------------------------------------
  // The screen's state
  // ---------------------------------------------------------------------

  /**
   * The component's state slots `loading` and `message`, and
   * react-hook-form's `isSubmitting`.  `oauthPending` stands for the
   * suspended OAuth handler, if any, and the provider its closure holds.
   */
  class SignInScreen {
    var loading: bool
    var message: string
    var submitting: bool
    var oauthPending: Option<Provider>

    /** `loading` is set exactly while an OAuth call is outstanding. */
    ghost predicate Valid()
      reads this
    {
      loading <==> oauthPending.Some?
    }

    constructor ()
      ensures Valid() && !loading && message == "" && !submitting
    {
      loading, message, submitting := false, "", false;
      oauthPending := None;
    }

    /**
     * A click on a provider button: `handleOAuthSignIn` up to its `await`.
     * The buttons are disabled while `loading`, so a click then does nothing.
     */
    method ClickOAuth(p: Provider) returns (started: bool)
      requires Valid()
      modifies this
      ensures Valid()
      ensures started <==> !old(loading)
      ensures started ==> loading && message == "" && oauthPending == Some(p)
      ensures !started ==> message == old(message) && oauthPending == old(oauthPending)
      ensures submitting == old(submitting)
    {
      started := !loading;
      if started {
        loading := true;
        message := "";
        oauthPending := Some(p);
      }
    }

    /** `handleOAuthSignIn` after its `await`: set the message, and in `finally` end loading. */
    method FinishOAuth(o: OAuthOutcome)
      requires Valid() && oauthPending.Some?
      modifies this
      ensures Valid() && !loading && oauthPending == None
      ensures message == match OAuthMessage(old(oauthPending).value, o)
                         case Some(text) => text
                         case None => old(message)
      ensures submitting == old(submitting)
    {
      match OAuthMessage(oauthPending.value, o) {
        case Some(text) =>
          message := text;
        case None =>
      }
      loading := false;
      oauthPending := None;
    }

    /**
     * Submitting the form.  The submit button is disabled while submitting
     * or loading, so nothing happens then (`None`).  Otherwise the fields are
     * checked, and `handleSignIn` starts only if both rules pass.
     */
    method SubmitSignIn(email: string, password: string) returns (verdicts: Option<SignInVerdicts>)
      requires Valid()
      modifies this
      ensures Valid()
      ensures verdicts.None? <==> old(submitting) || old(loading)
      ensures verdicts.Some? ==> verdicts.value == CheckFields(email, password)
      ensures submitting <==> old(submitting) || (verdicts.Some? && verdicts.value.AllPass())
      ensures loading == old(loading) && message == old(message) && oauthPending == old(oauthPending)
    {
      if submitting || loading {
        verdicts := None;
      } else {
        var v := CheckFields(email, password);
        verdicts := Some(v);
        submitting := v.AllPass();
      }
    }

    /** `handleSignIn` after its `await`: navigate or set the message; `loading` is not touched. */
    method FinishSignIn(o: SignInOutcome) returns (navigateTo: Option<string>)
      requires Valid() && submitting
      modifies this
      ensures Valid() && !submitting
      ensures navigateTo.Some? <==> HandleSignIn(o).Navigate?
      ensures navigateTo.Some? ==> navigateTo.value == DashboardPath && message == old(message)
      ensures HandleSignIn(o).ShowMessage? ==> message == HandleSignIn(o).text
      ensures loading == old(loading) && oauthPending == old(oauthPending)
    {
      match HandleSignIn(o) {
        case Navigate(path) =>
          navigateTo := Some(path);
        case ShowMessage(text) =>
          navigateTo := None;
          message := text;
      }
      submitting := false;
    }
  }
}
