# Auth screens of gdg-hackathon, modelled in Dafny

This project models the logic of three React screens of a small single-page
app whose authentication is done by a hosted backend (Supabase):

- **Forgot password** (`components/Forgotpassword.jsx`): a three-stage
  wizard ("email", "otp", "reset") with a message slot, a loading flag and
  three field values. Module `ForgotPassword` defines the transitions once,
  as the pure function `Step` over a snapshot `Wizard`. Each asynchronous
  handler is split at its `await` into a submit event and a `Settle`
  event. The class `ForgetPassword` has the component's six state slots as
  fields. The stage is a datatype with three variants, so it cannot hold
  any other value. Each method is proved to perform exactly one `Step`. The
  lemmas prove the invariant of every reachable state and the handlers'
  promises.
- **Sign in** (`components/Signin.jsx`): module `SignIn` covers the two field
  rules, what `handleSignIn` does with the result of `signInUser`, and what
  `handleOAuthSignIn` does with the OAuth outcome. The class `SignInScreen`
  models the `loading`/`message` slots and react-hook-form's `isSubmitting`.
- **Sign up** (`components/Signup.jsx`): module `SignUp` covers the three
  field rules and the navigation decision of `handleSignUp`. The screen has
  no state of its own, so this module has only functions and lemmas.

The field rules the two forms share are defined once, in module
`Validation`. This includes the email pattern `/^\S+@\S+$/i`. It is given
two definitions: what the regular expression accepts (a split into `\S+`,
`@`, `\S+`), and a simple executable test (no whitespace, and an `@` that is
neither the first nor the last character). `EmailShapeIff` proves the two
equivalent. `\S` uses ECMAScript's exact whitespace set. `minLength` counts
UTF-16 code units, as JavaScript's `length` does.

Each backend call is a parameter of the model: how it ended (ok, a returned
error with its message, or a thrown exception).

The model keeps these behaviours of the code:
- The wizard has no final "done" stage. A successful reset returns to the
  "email" stage.
- No field is checked for emptiness (`EmptyEmailIsSent`).
- The OTP is never examined (`OtpSubmitIgnoresOtp`).
- The email is not fixed once the OTP is requested. The email input stays
  editable while that request is outstanding. The later reset sends whatever
  email is then held, which may differ from the address the OTP went to
  (`EmailEditedDuringSendOtp`).

## Model

| member | source | states |
|---|---|---|
| `ForgotPassword.InitInv` | components/Forgotpassword.jsx:9-14 | the first render is in stage "email", not loading, with an empty message, and satisfies the invariant |
| `ForgotPassword.ReachableInv` | components/Forgotpassword.jsx:17-54 | in every state reachable from the first render, `loading` is set exactly while a call is outstanding; no state is both loading and in stage "otp"; a password update is outstanding only in stage "reset", for the email the wizard holds |
| `ForgotPassword.RunInv` | components/Forgotpassword.jsx:17-54 | any run of events from a state satisfying the invariant keeps it |
| `ForgotPassword.StepInv` | components/Forgotpassword.jsx:17-54 | each single event keeps the invariant |
| `ForgotPassword.SendOtpSettles` | components/Forgotpassword.jsx:17-32 | when the OTP request settles: success moves "email" to "otp" with "OTP sent successfully! Please check your email."; a returned error shows its message and a thrown one the generic text, both staying in "email"; loading ends in every case; no field changes |
| `ForgotPassword.ResetSettles` | components/Forgotpassword.jsx:35-54 | when the password update settles: success returns to "email" with "Password reset successful! You can now log in."; an error or exception stays in "reset" with its message; loading ends; no field changes |
| `ForgotPassword.ResetSendsCurrentFields` | components/Forgotpassword.jsx:39-42 | submitting the reset form issues an update carrying the current `email` and `newPassword` and sets loading |
| `ForgotPassword.OtpSubmitIgnoresOtp` | components/Forgotpassword.jsx:93-96 | submitting the OTP form changes only the stage, "otp" to "reset"; the result does not depend on the OTP value |
| `ForgotPassword.OnlyEditsChangeFields` | components/Forgotpassword.jsx:17-54 | only an edit of `email`, `otp` or `newPassword` changes that field; no handler does |
| `ForgotPassword.SingleRequestInFlight` | components/Forgotpassword.jsx:62-147 | while loading, every submit is a no-op; no event but the settling of the call changes the outstanding call, the stage or the message |
| `ForgotPassword.StageChanges` | components/Forgotpassword.jsx:20-96 | over any run without an OTP submit and without a successful settlement, the stage does not change |
| `ForgotPassword.EditsOnly` | components/Forgotpassword.jsx:72-137 | any run of field edits issues no call and changes neither stage, message nor loading |
| `ForgotPassword.RecoveryScenario` | components/Forgotpassword.jsx:17-147 | entering "a@b.com", success, OTP "123456", new password "secret1": the update is sent for ("a@b.com", "secret1"), and success ends in stage "email" with the success message, fields kept |
| `ForgotPassword.EmailEditedDuringSendOtp` | components/Forgotpassword.jsx:17-79 | an email edit while the OTP request is outstanding changes the email that the later reset sends |
| `ForgotPassword.EmailEditKeepsSentAddress` | components/Forgotpassword.jsx:17-79 | for every state with an OTP request outstanding for the held email, an email edit keeps the address already sent and makes the wizard hold the new one, so the later reset uses the new one |
| `ForgotPassword.EmptyEmailIsSent` | components/Forgotpassword.jsx:17-20 | an empty email is sent to the backend unchecked |
| `ForgotPassword.ForgetPassword.constructor` | components/Forgotpassword.jsx:9-14 | the slots start empty, in stage "email", not loading |
| `ForgotPassword.ForgetPassword.SetEmail` | components/Forgotpassword.jsx:72-79 | the email input's change handler, rendered only in stage "email", is one `Step` |
| `ForgotPassword.ForgetPassword.SetOtp` | components/Forgotpassword.jsx:101-108 | the OTP input's change handler, rendered only in stage "otp", is one `Step` |
| `ForgotPassword.ForgetPassword.SetNewPassword` | components/Forgotpassword.jsx:130-137 | the new-password input's change handler, rendered only in stage "reset", is one `Step` |
| `ForgotPassword.ForgetPassword.SubmitEmailForm` | components/Forgotpassword.jsx:17-20 | the request is sent exactly when in stage "email" and not loading; it carries the current email and sets loading |
| `ForgotPassword.ForgetPassword.FinishSendOtp` | components/Forgotpassword.jsx:20-31 | after the OTP request: stage "otp" exactly on success, else "email"; loading false |
| `ForgotPassword.ForgetPassword.SubmitOtpForm` | components/Forgotpassword.jsx:93-96 | "otp" becomes "reset"; otp, message and loading unchanged |
| `ForgotPassword.ForgetPassword.SubmitResetForm` | components/Forgotpassword.jsx:35-42 | the update is sent exactly when in stage "reset" and not loading, with the current email and new password |
| `ForgotPassword.ForgetPassword.FinishResetPassword` | components/Forgotpassword.jsx:43-53 | after the update: "email" exactly on success, else "reset"; loading false; email kept |
| `Validation.EmailShapeIff` | components/Signin.jsx:106 | `^\S+@\S+$` matches exactly the strings without whitespace that have an '@' at an index from 1 to length-2 |
| `Validation.EmailRule` | components/Signin.jsx:103-109 | the email field passes iff it matches the pattern; empty gives "Email is required", otherwise a mismatch gives "Enter a valid email" |
| `Validation.Utf16LengthBounds` | components/Signin.jsx:127-130 | JavaScript's length is between the character count and twice it, equal to it exactly on BMP text |
| `Validation.PasswordRule` | components/Signin.jsx:125-131 | the password passes iff it has at least 6 UTF-16 code units (always when it has 6 characters; on BMP text iff it has 6); empty gives "Password is required", short gives "Password must be at least 6 characters" |
| `Validation.ConfirmPasswordRule` | components/Signup.jsx:95-99 | confirm passes iff non-empty and equal to the password; empty gives "Confirm Password is required", a different value "Passwords do not match" |
| `SignIn.CheckFields` | components/Signin.jsx:103-131 | both sign-in fields pass iff the email matches the pattern and the password has at least 6 code units |
| `SignIn.NavigatesIffSuccess` | components/Signin.jsx:63-65 | `handleSignIn` navigates, always to "/dashboard", exactly when the result exists and has truthy `success` |
| `SignIn.FailureMessages` | components/Signin.jsx:66-76 | every failure sets a non-empty message: a returned error as it is; a missing result or one without success and error gives "Sign-in failed due to an unknown issue."; a thrown error its own message, or "An unexpected error occurred. Please try again later." when it has none |
| `SignIn.CredentialsFallbackUnreachable` | components/Signin.jsx:66-68 | the text "Sign-in failed. Please check your credentials." appears only if an error carried exactly that text |
| `SignIn.OAuthMessageKinds` | components/Signin.jsx:40-51 | the OAuth handler sets no message exactly when the call returns neither data nor error; an error message starts with "Error signing in with <provider>" and only an error's does; only returned data gives "Redirecting to ..." |
| `SignIn.OAuthMessageNamesProvider` | components/Signin.jsx:43-46 | error and redirect messages identify the provider that was clicked |
| `SignIn.SignInScreen.constructor` | components/Signin.jsx:22-23 | not loading, empty message, not submitting |
| `SignIn.SignInScreen.ClickOAuth` | components/Signin.jsx:26-32 | a provider click while not loading sets loading and clears the message; while loading the button is disabled and nothing happens |
| `SignIn.SignInScreen.FinishOAuth` | components/Signin.jsx:40-55 | after the OAuth call the message is the outcome's message (unchanged when neither data nor error), and loading is always false |
| `SignIn.SignInScreen.SubmitSignIn` | components/Signin.jsx:93-140 | a submit is ignored while submitting or loading; otherwise the fields are checked and `handleSignIn` starts only if both pass |
| `SignIn.SignInScreen.FinishSignIn` | components/Signin.jsx:58-78 | navigates to "/dashboard" exactly when the result reports success, leaving the message; otherwise sets the message `handleSignIn` chooses; loading untouched |
| `SignUp.CheckFields` | components/Signup.jsx:51-99 | the three sign-up fields pass iff the email matches the pattern, the password has at least 6 code units and the confirmation equals it |
| `SignUp.SubmitSignUp` | components/Signup.jsx:41 | `handleSignUp` runs iff all three rules pass; a blocked submission reports the verdicts |
| `SignUp.NavigatesIffValidAndSuccess` | components/Signup.jsx:21-31 | the screen navigates, only to "/dashboard", iff the fields pass and the result has truthy `success`; a non-success result, an undefined result and a thrown error all give no navigation and no message |
| `SignUp.BlockedMessages` | components/Signup.jsx:51-99 | a blocked submission shows, per field, the message of the first rule it breaks |

## Left out

- The backend calls are not modelled: `signInWithOtp`, `updateUser`, `signInWithOAuth`, `signInUser` and `signUpNewUser`. Each is a call into a hosted service whose code is not visible. Each becomes an outcome parameter.
- `context/AuthContext` and the route guard `PrivateRoute` are not part of this model.
- `components/Dashboard.jsx`'s sign-out handler is not modelled. It is a thin wrapper around the backend's `signOut`.
- The routing table and presentational pieces are not modelled: `App.jsx`, `router.jsx`, `components/ui/*`. They hold no logic.
- The commented-out phone-OTP variant in `components/Forgotpassword.jsx` is not modelled. It is dead code.
- `console.log`/`console.error` output is not modelled.
- Markup and styling are not modelled. This includes the red/blue choice of the sign-in message box (`components/Signin.jsx:88`).
- React rendering and `setState` batching are not modelled.
- Each handler's two halves, before and after its `await`, are atomic steps. Other events may come between the two halves, but not inside one.
- `ForgotPassword.ForgetPassword.SubmitEmailForm`: does not model the browser's own check of `type="email"` inputs, which blocks submitting a non-empty value that is not a valid email address.
- `SignIn.SignInScreen.SubmitSignIn`: does not model the browser's own check of `type="email"` inputs, which can block a submit before react-hook-form sees it.
- `SignUp.SubmitSignUp`: does not model the browser's own check of the `type="email"` input (`components/Signup.jsx:48`), which blocks submitting a value it does not accept as an email address (such as "abc" or "a@b@c") before react-hook-form runs.
- `SignUp.NavigatesIffValidAndSuccess`: does not model the browser's `type="email"` check, so an email that passes the pattern but not the browser's check (such as "a@b@c") never reaches `handleSignUp` on the page, although the model navigates on success.
- `SignUp.BlockedMessages`: does not model the browser's `type="email"` check; when it blocks a non-empty invalid email, the browser reports the problem and no react-hook-form message appears.
- `SignUp.SubmitSignUp`: does not model the disabling of the sign-up button while a submission is pending (`isSubmitting`). The screen is modelled as a function of one submission.
- The error in the result of `signInUser` is modelled as a string, with "" for a missing or falsy error. An error that is a non-string object is not modelled.
- react-hook-form is modelled only through the rules the forms declare. Its other internals are not modelled.
