/**
 * The forgot-password wizard: three stages ("email", "otp", "reset"), a
 * message slot, a loading flag and the three field values.
 *
 * Each asynchronous handler is split at its one `await` into the part that
 * runs when the form is submitted (set `loading`, issue the backend call) and
 * the part that runs when the call settles.  The backend itself is not
 * modelled: the way a call settles is an `Outcome` given from outside.
 *
 * The transitions are defined once, as the pure function `Step` over a
 * snapshot `Wizard`; the class `ForgetPassword` holds the component's state
 * slots and each of its methods is proved to perform exactly one `Step`.
 */
module ForgotPassword {
  import opened Wrappers

  datatype Stage = EmailStage | OtpStage | ResetStage

  /** How an awaited backend call settled: no error, a returned `error`, or a thrown exception. */
  datatype Outcome = Ok | ReturnedError(message: string) | Threw

  /** A backend call that has been issued and has not yet settled, with the arguments it was sent. */
  datatype Request =
    | SendOtp(email: string)                    // signInWithOtp({ email })
    | UpdateUser(email: string, password: string)  // updateUser({ email, password: newPassword })

  /** Everything the user can do to the wizard, and the settling of an outstanding call. */
  datatype Event =
    | EditEmail(value: string)
    | EditOtp(value: string)
    | EditNewPassword(value: string)
    | SubmitEmailForm
    | SubmitOtpForm
    | SubmitResetForm
    | Settle(outcome: Outcome)

  /**
   * A snapshot of the component's state slots, plus `inFlight`: the
   * suspended handler, if one is waiting for the backend.
   */
  datatype Wizard = Wizard(
    email: string,
    otp: string,
    newPassword: string,
    stage: Stage,
    message: string,
    loading: bool,
    inFlight: Option<Request>)

  const OtpSent := "OTP sent successfully! Please check your email."
  const ResetDone := "Password reset successful! You can now log in."
  const Unexpected := "An unexpected error occurred. Please try again."

  /** The state on first render: every slot empty, stage "email", not loading. */
  function Init(): Wizard {
    Wizard("", "", "", EmailStage, "", false, None)
  }

  /**
   * The shared tail of both handlers once their call settles: the message
   * is the success text, the returned error's message, or the generic text
   * of the catch block; the stage moves only on success; loading ends.
   */
  function Finish(w: Wizard, o: Outcome, next: Stage, success: string): Wizard {
    match o
    case Ok => w.(message := success, stage := next, loading := false, inFlight := None)
    case ReturnedError(m) => w.(message := m, loading := false, inFlight := None)
    case Threw => w.(message := Unexpected, loading := false, inFlight := None)
  }

  /**
   * One event.  An input or form exists only in its own stage, and a submit
   * button is disabled while `loading` is set (which also blocks submission
   * by the Enter key), so events that the page cannot deliver leave the
   * state as it is.  No field value is checked for emptiness, the OTP is
   * never examined, and a successful reset goes back to the "email" stage.
   */
  function Step(w: Wizard, e: Event): Wizard {
    match e
    case EditEmail(v) => if w.stage == EmailStage then w.(email := v) else w
    case EditOtp(v) => if w.stage == OtpStage then w.(otp := v) else w
    case EditNewPassword(v) => if w.stage == ResetStage then w.(newPassword := v) else w
    case SubmitEmailForm =>
      if w.stage == EmailStage && !w.loading
      then w.(loading := true, inFlight := Some(SendOtp(w.email)))
      else w
    case SubmitOtpForm =>
      if w.stage == OtpStage && !w.loading then w.(stage := ResetStage) else w
    case SubmitResetForm =>
      if w.stage == ResetStage && !w.loading
      then w.(loading := true, inFlight := Some(UpdateUser(w.email, w.newPassword)))
      else w
    case Settle(o) =>
      match w.inFlight
      case None => w
      case Some(SendOtp(_)) => Finish(w, o, OtpStage, OtpSent)
      case Some(UpdateUser(_, _)) => Finish(w, o, EmailStage, ResetDone)
  }

  /** The events applied one after another. */
  function Run(w: Wizard, es: seq<Event>): Wizard
    decreases |es|
  {
    if es == [] then w else Run(Step(w, es[0]), es[1..])
  }

  /**
   * The invariant of every reachable state: `loading` is set exactly while
   * a call is outstanding; an OTP request is only outstanding in the
   * "email" stage and a password update only in the "reset" stage, for the
   * email the wizard still holds; in the "otp" stage nothing is loading.
   */
  ghost predicate Inv(w: Wizard) {
    (w.loading <==> w.inFlight.Some?) &&
    (w.stage == OtpStage ==> !w.loading) &&
    (match w.inFlight
     case None => true
     case Some(SendOtp(_)) => w.stage == EmailStage
     case Some(UpdateUser(em, _)) => w.stage == ResetStage && em == w.email)
  }

  lemma InitInv()
    ensures Inv(Init())
    ensures Init().stage == EmailStage && !Init().loading && Init().message == ""
  {
  }

  lemma StepInv(w: Wizard, e: Event)
    requires Inv(w)
    ensures Inv(Step(w, e))
  {
  }

  /** Every state reached from the first render satisfies the invariant. */
  lemma {:induction false} RunInv(w: Wizard, es: seq<Event>)
    requires Inv(w)
    ensures Inv(Run(w, es))
    decreases |es|
  {
    if es != [] {
      StepInv(w, es[0]);
      RunInv(Step(w, es[0]), es[1..]);
    }
  }

  lemma {:induction false} ReachableInv(es: seq<Event>)
    ensures Inv(Run(Init(), es))
  {
    InitInv();
    RunInv(Init(), es);
  }

  /** Sending the OTP: on success the stage moves from "email" to "otp"; otherwise it stays and the error is shown. */
  lemma SendOtpSettles(w: Wizard, o: Outcome)
    requires Inv(w) && w.inFlight.Some? && w.inFlight.value.SendOtp?
    ensures var w' := Step(w, Settle(o));
      !w'.loading && w'.inFlight == None &&
      (o == Ok ==> w'.stage == OtpStage && w'.message == OtpSent) &&
      (o.ReturnedError? ==> w'.stage == EmailStage && w'.message == o.message) &&
      (o == Threw ==> w'.stage == EmailStage && w'.message == Unexpected) &&
      w'.email == w.email && w'.otp == w.otp && w'.newPassword == w.newPassword
  {
  }

  /** Resetting the password: on success back to "email" with the success text; otherwise the stage stays "reset". */
  lemma ResetSettles(w: Wizard, o: Outcome)
    requires Inv(w) && w.inFlight.Some? && w.inFlight.value.UpdateUser?
    ensures var w' := Step(w, Settle(o));
      !w'.loading && w'.inFlight == None &&
      (o == Ok ==> w'.stage == EmailStage && w'.message == ResetDone) &&
      (o.ReturnedError? ==> w'.stage == ResetStage && w'.message == o.message) &&
      (o == Threw ==> w'.stage == ResetStage && w'.message == Unexpected) &&
      w'.email == w.email && w'.otp == w.otp && w'.newPassword == w.newPassword
  {
  }

  /** The reset request carries the wizard's current email and new password. */
  lemma ResetSendsCurrentFields(w: Wizard)
    requires w.stage == ResetStage && !w.loading
    ensures Step(w, SubmitResetForm).inFlight == Some(UpdateUser(w.email, w.newPassword))
    ensures Step(w, SubmitResetForm).loading
  {
  }

  /**
   * Submitting the OTP form moves "otp" to "reset" and nothing else: the
   * OTP value plays no part, no call is issued, message and loading stay.
   */
  lemma OtpSubmitIgnoresOtp(w: Wizard, code: string)
    requires Inv(w) && w.stage == OtpStage
    ensures Step(w, SubmitOtpForm) == w.(stage := ResetStage)
    ensures Step(w.(otp := code), SubmitOtpForm) == Step(w, SubmitOtpForm).(otp := code)
  {
  }

  /** Only the field's own input changes `email`, `otp` or `newPassword`; no handler does. */
  lemma OnlyEditsChangeFields(w: Wizard, e: Event)
    ensures !e.EditEmail? ==> Step(w, e).email == w.email
    ensures !e.EditOtp? ==> Step(w, e).otp == w.otp
    ensures !e.EditNewPassword? ==> Step(w, e).newPassword == w.newPassword
  {
  }

  /**
   * While a call is outstanding no submit does anything, so no second call
   * can be issued and the outstanding one stays outstanding until it settles.
   */
  lemma SingleRequestInFlight(w: Wizard, e: Event)
    requires Inv(w) && w.loading && !e.Settle?
    ensures Step(w, e).inFlight == w.inFlight && Step(w, e).loading
    ensures Step(w, e).stage == w.stage && Step(w, e).message == w.message
    ensures e.SubmitEmailForm? || e.SubmitOtpForm? || e.SubmitResetForm? ==> Step(w, e) == w
  {
  }

  /** The stage changes only by submitting the OTP form or by a call settling with success. */
  lemma {:induction false} StageChanges(w: Wizard, es: seq<Event>)
    requires Inv(w)
    requires forall k :: 0 <= k < |es| ==> es[k] != SubmitOtpForm && es[k] != Settle(Ok)
    ensures Run(w, es).stage == w.stage
    decreases |es|
  {
    if es != [] {
      StepInv(w, es[0]);
      StageChanges(Step(w, es[0]), es[1..]);
    }
  }

  /** No field edit, however often repeated, issues a call or moves the stage. */
  lemma {:induction false} EditsOnly(w: Wizard, es: seq<Event>)
    requires forall k :: 0 <= k < |es| ==> es[k].EditEmail? || es[k].EditOtp? || es[k].EditNewPassword?
    ensures Run(w, es).stage == w.stage && Run(w, es).message == w.message
    ensures Run(w, es).loading == w.loading && Run(w, es).inFlight == w.inFlight
    decreases |es|
  {
    if es != [] {
      EditsOnly(Step(w, es[0]), es[1..]);
    }
  }

  /**
   * A full recovery: the reset request goes to the email the OTP was sent
   * to, the flow ends in the "email" stage (there is no separate final
   * stage) with the success text, and the fields keep their values.
   */
  lemma RecoveryScenario()
    ensures var es := [EditEmail("a@b.com"), SubmitEmailForm, Settle(Ok), EditOtp("123456"),
                       SubmitOtpForm, EditNewPassword("secret1"), SubmitResetForm];
      Run(Init(), es).inFlight == Some(UpdateUser("a@b.com", "secret1")) &&
      Run(Init(), es + [Settle(Ok)]) == Wizard("a@b.com", "123456", "secret1", EmailStage, ResetDone, false, None)
  {
    var w0 := Init();
    var w1 := Step(w0, EditEmail("a@b.com"));
    var w2 := Step(w1, SubmitEmailForm);
    assert w2.inFlight == Some(SendOtp("a@b.com"));
    var w3 := Step(w2, Settle(Ok));
    assert w3.stage == OtpStage;
    var w4 := Step(w3, EditOtp("123456"));
    var w5 := Step(w4, SubmitOtpForm);
    assert w5.stage == ResetStage;
    var w6 := Step(w5, EditNewPassword("secret1"));
    var w7 := Step(w6, SubmitResetForm);
    var w8 := Step(w7, Settle(Ok));
    var es := [EditEmail("a@b.com"), SubmitEmailForm, Settle(Ok), EditOtp("123456"),
               SubmitOtpForm, EditNewPassword("secret1"), SubmitResetForm];
    RunSnoc(w0, es, Settle(Ok));
    assert Run(w0, es) == w7 by {
      RunSnoc(w0, es[..6], es[6]);
      assert es[..6] + [es[6]] == es;
      RunSnoc(w0, es[..5], es[5]);
      assert es[..5] + [es[5]] == es[..6];
      RunSnoc(w0, es[..4], es[4]);
      assert es[..4] + [es[4]] == es[..5];
      RunSnoc(w0, es[..3], es[3]);
      assert es[..3] + [es[3]] == es[..4];
      RunSnoc(w0, es[..2], es[2]);
      assert es[..2] + [es[2]] == es[..3];
      RunSnoc(w0, es[..1], es[1]);
      assert es[..1] + [es[1]] == es[..2];
      RunSnoc(w0, [], es[0]);
      assert [] + [es[0]] == es[..1];
    }
  }

  /** Running one more event is one more step. */
  lemma {:induction false} RunSnoc(w: Wizard, es: seq<Event>, e: Event)
    ensures Run(w, es + [e]) == Step(Run(w, es), e)
    decreases |es|
  {
    if es == [] {
      assert [] + [e] == [e];
    } else {
      assert (es + [e])[1..] == es[1..] + [e];
      RunSnoc(Step(w, es[0]), es[1..], e);
    }
  }

  /**
   * The email input stays editable while the OTP request is outstanding,
   * and the reset later sends the email held at that time: here the OTP
   * goes to "a@b.com" and the password update to "c@d.com".
   */
  lemma EmailEditedDuringSendOtp(w: Wizard)
    requires w == Init().(email := "a@b.com")
    ensures var w1 := Step(w, SubmitEmailForm);
      w1.inFlight == Some(SendOtp("a@b.com")) &&
      var w2 := Step(Step(Step(w1, EditEmail("c@d.com")), Settle(Ok)), SubmitOtpForm);
      Step(w2, SubmitResetForm).inFlight == Some(UpdateUser("c@d.com", ""))
  {
  }

  /**
   * In general: while an OTP request for the held email is outstanding, an
   * email edit keeps the address already sent and the wizard then holds the
   * new one, which is what a later reset would send.
   */
  lemma EmailEditKeepsSentAddress(w: Wizard, v: string)
    requires Inv(w) && w.inFlight == Some(SendOtp(w.email))
    ensures Step(w, EditEmail(v)).inFlight == Some(SendOtp(w.email))
    ensures Step(w, EditEmail(v)).email == v
    ensures Step(w, EditEmail(v)).loading
    ensures var w1 := Step(Step(Step(w, EditEmail(v)), Settle(Ok)), SubmitOtpForm);
      Step(w1, SubmitResetForm).inFlight == Some(UpdateUser(v, w.newPassword))
  {
  }

  /** No field is checked for emptiness: an empty email is sent as it is. */
  lemma EmptyEmailIsSent(w: Wizard)
    requires w.stage == EmailStage && !w.loading && w.email == ""
    ensures Step(w, SubmitEmailForm).inFlight == Some(SendOtp(""))
  {
  }

  /**
   * The component.  Its six state slots are fields; `inFlight` is the
   * suspended handler, a ghost because JavaScript keeps it in the pending
   * promise rather than in a slot.
   */
  class ForgetPassword {
    var email: string
    var otp: string
    var newPassword: string
    var stage: Stage
    var message: string
    var loading: bool
    ghost var inFlight: Option<Request>

    ghost function State(): Wizard
      reads this
    {
      Wizard(email, otp, newPassword, stage, message, loading, inFlight)
    }

    ghost predicate Valid()
      reads this
    {
      Inv(State())
    }

    constructor ()
      ensures Valid() && State() == Init()
      ensures stage == EmailStage && !loading && message == ""
    {
      email, otp, newPassword := "", "", "";
      stage, message, loading := EmailStage, "", false;
      inFlight := None;
    }

    /** The email input's `onChange`; the input is rendered only in the "email" stage. */
    method SetEmail(v: string)
      requires Valid()
      modifies this
      ensures Valid() && State() == Step(old(State()), EditEmail(v))
    {
      if stage == EmailStage {
        email := v;
      }
    }

    /** The OTP input's `onChange`; rendered only in the "otp" stage. */
    method SetOtp(v: string)
      requires Valid()
      modifies this
      ensures Valid() && State() == Step(old(State()), EditOtp(v))
    {
      if stage == OtpStage {
        otp := v;
      }
    }

    /** The new-password input's `onChange`; rendered only in the "reset" stage. */
    method SetNewPassword(v: string)
      requires Valid()
      modifies this
      ensures Valid() && State() == Step(old(State()), EditNewPassword(v))
    {
      if stage == ResetStage {
        newPassword := v;
      }
    }

    /**
     * Submitting the email form: `handleSendOtp` up to its `await`.  Returns
     * the call handed to the backend, if the submission went through.
     */
    method SubmitEmailForm() returns (sent: Option<Request>)
      requires Valid()
      modifies this
      ensures Valid() && State() == Step(old(State()), Event.SubmitEmailForm)
      ensures sent.Some? <==> old(stage) == EmailStage && !old(loading)
      ensures sent.Some? ==> sent == inFlight == Some(SendOtp(email)) && loading
    {
      sent := None;
      if stage == EmailStage && !loading {
        loading := true;
        sent := Some(SendOtp(email));
        inFlight := sent;
      }
    }

    /** `handleSendOtp` after its `await`: report the outcome, advance on success, end loading. */
    method FinishSendOtp(o: Outcome)
      requires Valid() && inFlight.Some? && inFlight.value.SendOtp?
      modifies this
      ensures Valid() && State() == Step(old(State()), Settle(o))
      ensures !loading
      ensures stage == (if o == Ok then OtpStage else EmailStage)
    {
      match o {
        case ReturnedError(m) =>
          message := m;
        case Ok =>
          message := OtpSent;
          stage := OtpStage;
        case Threw =>
          message := Unexpected;
      }
      loading := false;
      inFlight := None;
    }

    /** Submitting the OTP form: straight to the "reset" stage. */
    method SubmitOtpForm()
      requires Valid()
      modifies this
      ensures Valid() && State() == Step(old(State()), Event.SubmitOtpForm)
      ensures old(stage) == OtpStage ==> stage == ResetStage
      ensures otp == old(otp) && message == old(message) && loading == old(loading)
    {
      if stage == OtpStage && !loading {
        stage := ResetStage;
      }
    }

    /** Submitting the reset form: `handleResetPassword` up to its `await`. */
    method SubmitResetForm() returns (sent: Option<Request>)
      requires Valid()
      modifies this
      ensures Valid() && State() == Step(old(State()), Event.SubmitResetForm)
      ensures sent.Some? <==> old(stage) == ResetStage && !old(loading)
      ensures sent.Some? ==> sent == inFlight == Some(UpdateUser(email, newPassword)) && loading
    {
      sent := None;
      if stage == ResetStage && !loading {
        loading := true;
        sent := Some(UpdateUser(email, newPassword));
        inFlight := sent;
      }
    }

    /** `handleResetPassword` after its `await`: on success back to "email", else stay in "reset". */
    method FinishResetPassword(o: Outcome)
      requires Valid() && inFlight.Some? && inFlight.value.UpdateUser?
      modifies this
      ensures Valid() && State() == Step(old(State()), Settle(o))
      ensures !loading
      ensures stage == (if o == Ok then EmailStage else ResetStage)
      ensures email == old(email)
    {
      match o {
        case ReturnedError(m) =>
          message := m;
        case Ok =>
          message := ResetDone;
          stage := EmailStage;
        case Threw =>
          message := Unexpected;
      }
      loading := false;
      inFlight := None;
    }
  }
}
