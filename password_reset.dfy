/** The three-step password-reset wizard: (1) ask for a code by e-mail or
    text message, (2) enter the code, (3) choose a new password. Each step's
    handler checks its fields, calls the backend and, on success, shows a
    message and moves on after a delay. */
module PasswordReset {
  import opened Common

  datatype ResetForm = ResetForm(email: string, phone: string, verificationCode: string, newPassword: string, confirmPassword: string)

  /** The `name` attributes of the form's inputs. */
  datatype FieldName = Email | Phone | VerificationCode | NewPassword | ConfirmPassword

  /** The request bodies of the three backend calls. */
  datatype Call =
    | RequestReset(accountType: string, via: string, email: string, phone: string)
    | VerifyResetCode(accountType: string, via: string, email: string, phone: string, code: string)
    | ResetPasswordCall(accountType: string, via: string, email: string, phone: string, code: string, newPassword: string)

  /** A `setTimeout` callback that has been scheduled and not yet run. */
  datatype Timer = ToStep(target: int) | ToLogin

  /** `setFormData(prev => ({ ...prev, [name]: value }))`. */
  function WithField(form: ResetForm, name: FieldName, value: string): ResetForm {
    match name
    case Email => form.(email := value)
    case Phone => form.(phone := value)
    case VerificationCode => form.(verificationCode := value)
    case NewPassword => form.(newPassword := value)
    case ConfirmPassword => form.(confirmPassword := value)
  }

  /** The field a name selects. */
  function FieldValue(form: ResetForm, name: FieldName): string {
    match name
    case Email => form.email
    case Phone => form.phone
    case VerificationCode => form.verificationCode
    case NewPassword => form.newPassword
    case ConfirmPassword => form.confirmPassword
  }

  /** handleChange sets the named field and no other. */
  lemma WithFieldFrame(form: ResetForm, name: FieldName, value: string)
    ensures FieldValue(WithField(form, name, value), name) == value
    ensures forall other :: other != name ==> FieldValue(WithField(form, name, value), other) == FieldValue(form, other)
  {
  }

  // ---------------------------------------------------------------------
  // The guards

  /** Step 1: the field the chosen method needs must be filled in. */
  function RequestGuard(verificationMethod: string, form: ResetForm): (e: Option<string>)
    ensures e == Some("Email is required.") <==> verificationMethod == "email" && form.email == ""
    ensures e == Some("Phone number is required.") <==> verificationMethod == "phone" && form.phone == ""
    ensures e == None <==> !(verificationMethod == "email" && form.email == "") && !(verificationMethod == "phone" && form.phone == "")
  {
    if verificationMethod == "email" && form.email == "" then Some("Email is required.")
    else if verificationMethod == "phone" && form.phone == "" then Some("Phone number is required.")
    else None
  }

  /** Step 2: a code must be entered. */
  function CodeGuard(form: ResetForm): (e: Option<string>)
    ensures e == None <==> form.verificationCode != ""
    ensures e != None ==> e == Some("Verification code is required.")
  {
    if form.verificationCode == "" then Some("Verification code is required.") else None
  }

  /** Step 3: both passwords filled in (checked first), then equal. */
  function ResetGuard(form: ResetForm): (e: Option<string>)
    ensures e == None <==> form.newPassword != "" && form.confirmPassword != "" && form.newPassword == form.confirmPassword
    ensures e == Some("All fields are required.") <==> form.newPassword == "" || form.confirmPassword == ""
    ensures e == Some("Passwords do not match.") <==>
      form.newPassword != "" && form.confirmPassword != "" && form.newPassword != form.confirmPassword
  {
    if form.newPassword == "" || form.confirmPassword == "" then Some("All fields are required.")
    else if form.newPassword != form.confirmPassword then Some("Passwords do not match.")
    else None
  }

  /** An empty new password beside a filled-in confirmation is reported
      as missing, although the two also differ. */
  lemma MissingBeforeMismatch(form: ResetForm)
    requires form.newPassword == "" && form.confirmPassword != ""
    ensures form.newPassword != form.confirmPassword
    ensures ResetGuard(form) == Some("All fields are required.")
  {
  }

  // ---------------------------------------------------------------------
  // The wizard

  class ResetWizard {
    var field: string
    var step: int
    var verificationMethod: string
    var form: ResetForm
    var loading: bool
    var error: Option<string>
    var successMessage: Option<string>
    var timers: seq<Timer>

    /** Steps stay within 1..3 and every scheduled step change targets 2 or 3. */
    predicate Valid()
      reads this
    {
      1 <= step <= 3 && forall i :: 0 <= i < |timers| ==> timers[i] == ToLogin || 2 <= timers[i].target <= 3
    }

    constructor()
      ensures field == "Student" && step == 1 && verificationMethod == "email"
      ensures form == ResetForm("", "", "", "", "")
      ensures !loading && error == None && successMessage == None && timers == []
      ensures Valid()
    {
      field := "Student";
      step := 1;
      verificationMethod := "email";
      form := ResetForm("", "", "", "", "");
      loading := false;
      error := None;
      successMessage := None;
      timers := [];
    }

    /** The account-type tabs. */
    method SelectTab(accountType: string)
      requires Valid()
      modifies this
      ensures field == accountType
      ensures step == old(step) && verificationMethod == old(verificationMethod) && form == old(form)
      ensures loading == old(loading) && error == old(error) && successMessage == old(successMessage) && timers == old(timers)
      ensures Valid()
    {
      field := accountType;
    }

    method HandleMethodChange(m: string)
      requires Valid()
      modifies this
      ensures verificationMethod == m
      ensures step == old(step) && field == old(field) && form == old(form)
      ensures loading == old(loading) && error == old(error) && successMessage == old(successMessage) && timers == old(timers)
      ensures Valid()
    {
      verificationMethod := m;
    }

    method HandleChange(name: FieldName, value: string)
      requires Valid()
      modifies this
      ensures form == WithField(old(form), name, value)
      ensures step == old(step) && field == old(field) && verificationMethod == old(verificationMethod)
      ensures loading == old(loading) && error == old(error) && successMessage == old(successMessage) && timers == old(timers)
      ensures Valid()
    {
      form := WithField(form, name, value);
    }

    /** handleRequestVerification: the guard's message and no call, or the
        call; on success a message and a scheduled move to step 2, on
        failure the server's message or the method-specific default. */
    method HandleRequestVerification(response: Response<()>) returns (sent: Option<Call>)
      requires Valid()
      modifies this
      ensures RequestGuard(old(verificationMethod), old(form)).Some? ==>
        sent == None && error == RequestGuard(old(verificationMethod), old(form))
        && loading == old(loading) && successMessage == old(successMessage) && timers == old(timers)
      ensures RequestGuard(old(verificationMethod), old(form)).None? ==>
        sent == Some(RequestReset(field, verificationMethod, form.email, form.phone)) && !loading
      ensures sent.Some? && response.Ok? ==>
        error == None && timers == old(timers) + [ToStep(2)]
        && successMessage == Some("Verification code sent to your " + verificationMethod + ". Please check and enter the code.")
      ensures sent.Some? && response.Failed? ==>
        error == Some(OrElse(response.serverMessage, "Failed to send verification code to " + verificationMethod + "."))
        && successMessage == old(successMessage) && timers == old(timers)
      ensures step == old(step) && field == old(field) && verificationMethod == old(verificationMethod) && form == old(form)
      ensures Valid()
    {
      var guard := RequestGuard(verificationMethod, form);
      if guard.Some? {
        error := guard;
        return None;
      }
      loading := true;
      error := None;
      sent := Some(RequestReset(field, verificationMethod, form.email, form.phone));
      match response {
        case Ok(_) =>
          successMessage := Some("Verification code sent to your " + verificationMethod + ". Please check and enter the code.");
          timers := timers + [ToStep(2)];
        case Failed(serverMessage) =>
          error := Some(OrElse(serverMessage, "Failed to send verification code to " + verificationMethod + "."));
      }
      loading := false;
    }

    /** handleVerifyCode. */
    method HandleVerifyCode(response: Response<()>) returns (sent: Option<Call>)
      requires Valid()
      modifies this
      ensures CodeGuard(old(form)).Some? ==>
        sent == None && error == Some("Verification code is required.")
        && loading == old(loading) && successMessage == old(successMessage) && timers == old(timers)
      ensures CodeGuard(old(form)).None? ==>
        sent == Some(VerifyResetCode(field, verificationMethod, form.email, form.phone, form.verificationCode)) && !loading
      ensures sent.Some? && response.Ok? ==>
        error == None && timers == old(timers) + [ToStep(3)]
        && successMessage == Some("Verification successful. Please set your new password.")
      ensures sent.Some? && response.Failed? ==>
        error == Some(OrElse(response.serverMessage, "Invalid verification code."))
        && successMessage == old(successMessage) && timers == old(timers)
      ensures step == old(step) && field == old(field) && verificationMethod == old(verificationMethod) && form == old(form)
      ensures Valid()
    {
      var guard := CodeGuard(form);
      if guard.Some? {
        error := guard;
        return None;
      }
      loading := true;
      error := None;
      sent := Some(VerifyResetCode(field, verificationMethod, form.email, form.phone, form.verificationCode));
      match response {
        case Ok(_) =>
          successMessage := Some("Verification successful. Please set your new password.");
          timers := timers + [ToStep(3)];
        case Failed(serverMessage) =>
          error := Some(OrElse(serverMessage, "Invalid verification code."));
      }
      loading := false;
    }

    /** handleResetPassword. */
    method HandleResetPassword(response: Response<()>) returns (sent: Option<Call>)
      requires Valid()
      modifies this
      ensures ResetGuard(old(form)).Some? ==>
        sent == None && error == ResetGuard(old(form))
        && loading == old(loading) && successMessage == old(successMessage) && timers == old(timers)
      ensures ResetGuard(old(form)).None? ==>
        sent == Some(ResetPasswordCall(field, verificationMethod, form.email, form.phone, form.verificationCode, form.newPassword))
        && !loading
      ensures sent.Some? && response.Ok? ==>
        error == None && timers == old(timers) + [ToLogin]
        && successMessage == Some("Password reset successful! Redirecting to login...")
      ensures sent.Some? && response.Failed? ==>
        error == Some(OrElse(response.serverMessage, "Failed to reset password."))
        && successMessage == old(successMessage) && timers == old(timers)
      ensures step == old(step) && field == old(field) && verificationMethod == old(verificationMethod) && form == old(form)
      ensures Valid()
    {
      var guard := ResetGuard(form);
      if guard.Some? {
        error := guard;
        return None;
      }
      loading := true;
      error := None;
      sent := Some(ResetPasswordCall(field, verificationMethod, form.email, form.phone, form.verificationCode, form.newPassword));
      match response {
        case Ok(_) =>
          successMessage := Some("Password reset successful! Redirecting to login...");
          timers := timers + [ToLogin];
        case Failed(serverMessage) =>
          error := Some(OrElse(serverMessage, "Failed to reset password."));
      }
      loading := false;
    }

    /** The Back buttons: step 2 goes to 1 and step 3 to 2; step 1 has none. */
    method Back()
      requires Valid()
      modifies this
      ensures old(step) == 1 ==> step == 1
      ensures old(step) >= 2 ==> step == old(step) - 1
      ensures field == old(field) && verificationMethod == old(verificationMethod) && form == old(form)
      ensures loading == old(loading) && error == old(error) && successMessage == old(successMessage) && timers == old(timers)
      ensures Valid()
    {
      if step >= 2 {
        step := step - 1;
      }
    }

    /** The oldest scheduled callback runs: it clears the success message and
        either sets the step or leaves for the login page. */
    method TimerFires() returns (navigateToLogin: bool)
      requires Valid()
      requires timers != []
      modifies this
      ensures timers == old(timers)[1..]
      ensures successMessage == None
      ensures old(timers)[0].ToStep? ==> step == old(timers)[0].target && !navigateToLogin
      ensures old(timers)[0] == ToLogin ==> step == old(step) && navigateToLogin
      ensures field == old(field) && verificationMethod == old(verificationMethod) && form == old(form)
      ensures loading == old(loading) && error == old(error)
      ensures Valid()
    {
      var t := timers[0];
      timers := timers[1..];
      successMessage := None;
      navigateToLogin := false;
      match t {
        case ToStep(target) => step := target;
        case ToLogin => navigateToLogin := true;
      }
    }
  }

  /** Going Back while the move to step 2 is still scheduled does not stay:
      the callback still runs and brings the wizard to step 2. */
  method BackThenTimer(w: ResetWizard)
    requires w.Valid() && w.step == 2 && w.timers == [ToStep(2)]
    modifies w
    ensures w.step == 2 && w.timers == []
  {
    w.Back();
    assert w.step == 1;
    var _ := w.TimerFires();
  }
}
