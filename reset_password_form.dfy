/** The older front-end's reset form: the address (prefilled, and then locked, when the
    forgot-password page passed one along), the code, and the new password twice. */
module ResetPasswordForm {
  import opened Common
  import opened OtpVerification

  datatype Field = EmailField | OtpField | NewPasswordField | ConfirmPasswordField

  const AllFields := {EmailField, OtpField, NewPasswordField, ConfirmPasswordField}

  /** `validate()`: one message per failing field, emptiness checked first. */
  function Validate(email: string, otp: string, newPassword: string, confirm: string): (errors: map<Field, string>)
    ensures EmailField in errors <==> email == ""
    ensures EmailField in errors ==> errors[EmailField] == "Email is required"
    ensures OtpField in errors <==> |otp| != CodeLength
    ensures OtpField in errors ==> errors[OtpField] == (if otp == "" then "OTP is required" else "OTP must be 6 digits")
    ensures NewPasswordField in errors <==> |newPassword| < 8
    ensures NewPasswordField in errors ==>
              errors[NewPasswordField] == (if newPassword == "" then "Password is required"
                                           else "Password must be at least 8 characters")
    ensures ConfirmPasswordField in errors <==> confirm == "" || confirm != newPassword
    ensures ConfirmPasswordField in errors ==>
              errors[ConfirmPasswordField] == (if confirm == "" then "Please confirm your password"
                                               else "Passwords do not match")
  {
    var e1 := if email == "" then map[EmailField := "Email is required"] else map[];
    var e2 := if otp == "" then e1[OtpField := "OTP is required"]
              else if |otp| != CodeLength then e1[OtpField := "OTP must be 6 digits"]
              else e1;
    var e3 := if newPassword == "" then e2[NewPasswordField := "Password is required"]
              else if |newPassword| < 8 then e2[NewPasswordField := "Password must be at least 8 characters"]
              else e2;
    if confirm == "" then e3[ConfirmPasswordField := "Please confirm your password"]
    else if newPassword != confirm then e3[ConfirmPasswordField := "Passwords do not match"]
    else e3
  }

  /** A code typed through the field's filter passes the code check exactly when six digits
      were typed. */
  lemma FilteredCodeCheck(typed: string)
    ensures OtpField !in Validate("x", OtpFilter(typed), "", "") <==> |KeepDigits(typed)| >= CodeLength
  {
  }

  datatype CallOutcome = Resolved | Threw(message: string)

  datatype ResetRequest = ResetRequest(email: string, otp: string, newPassword: string, confirmPassword: string)

  /** A navigation scheduled with `setTimeout`. */
  datatype Scheduled = Scheduled(path: string, delayMs: nat)

  class Form {
    var formData: map<Field, string>
    var errors: map<Field, string>
    var loading: bool
    var serverError: string
    var success: bool
    var scheduled: Option<Scheduled>
    /** The e-mail input is disabled when an address came with the navigation. */
    const emailLocked: bool

    predicate Valid()
      reads this
    {
      formData.Keys == AllFields && AllDigits(formData[OtpField]) && |formData[OtpField]| <= CodeLength
    }

    /** The address passed in the navigation state, when there is one, fills and locks the
        e-mail field. */
    constructor (emailFromState: Option<string>)
      ensures Valid() && errors == map[] && !loading && serverError == "" && !success && scheduled.None?
      ensures formData[EmailField] == (if Truthy(emailFromState) then emailFromState.value else "")
      ensures emailLocked <==> Truthy(emailFromState)
      ensures formData[OtpField] == "" && formData[NewPasswordField] == "" && formData[ConfirmPasswordField] == ""
    {
      formData := map[EmailField := if Truthy(emailFromState) then emailFromState.value else "",
                      OtpField := "", NewPasswordField := "", ConfirmPasswordField := ""];
      errors, loading, serverError, success, scheduled := map[], false, "", false, None;
      emailLocked := Truthy(emailFromState);
    }

    /** `handleChange`: the code field keeps only what the filter lets through; the edited
        field's non-empty error and the server error are cleared. The e-mail input is
        disabled when the address came with the navigation, so it sends no change then. */
    method HandleChange(name: Field, value: string)
      requires Valid()
      requires !emailLocked || name != EmailField
      modifies this
      ensures Valid() && serverError == ""
      ensures emailLocked ==> formData[EmailField] == old(formData)[EmailField]
      ensures formData == old(formData)[name := if name == OtpField then OtpFilter(value) else value]
      ensures errors == (if name in old(errors) && old(errors)[name] != "" then old(errors)[name := ""] else old(errors))
      ensures loading == old(loading) && success == old(success) && scheduled == old(scheduled)
    {
      if name == OtpField {
        formData := formData[name := OtpFilter(value)];
      } else {
        formData := formData[name := value];
      }
      if name in errors && errors[name] != "" {
        errors := errors[name := ""];
      }
      serverError := "";
    }

    /** `handleSubmit`: no request while validation finds errors; on success the form shows
        its success state and schedules the login page after 2000 ms; on failure it shows the
        error's message. */
    method HandleSubmit(outcome: CallOutcome) returns (sent: Option<ResetRequest>)
      requires Valid()
      modifies this
      ensures Valid() && formData == old(formData)
      ensures var v := Validate(formData[EmailField], formData[OtpField], formData[NewPasswordField],
                                formData[ConfirmPasswordField]);
              && (sent.Some? <==> v == map[])
              && (v != map[] ==> errors == v && loading == old(loading) && serverError == old(serverError)
                                 && success == old(success) && scheduled == old(scheduled))
              && (v == map[] ==>
                    && sent.value == ResetRequest(formData[EmailField], formData[OtpField],
                                                  formData[NewPasswordField], formData[ConfirmPasswordField])
                    && errors == old(errors) && !loading
                    && (outcome.Resolved? ==> success && scheduled == Some(Scheduled("/login", 2000)) && serverError == "")
                    && (outcome.Threw? ==>
                          success == old(success) && scheduled == old(scheduled)
                          && serverError == (if outcome.message != "" then outcome.message
                                             else "Failed to reset password. Please try again.")))
    {
      var v := Validate(formData[EmailField], formData[OtpField], formData[NewPasswordField], formData[ConfirmPasswordField]);
      if v != map[] {
        errors := v;
        return None;
      }
      loading := true;
      serverError := "";
      sent := Some(ResetRequest(formData[EmailField], formData[OtpField], formData[NewPasswordField], formData[ConfirmPasswordField]));
      match outcome {
        case Resolved =>
          success := true;
          scheduled := Some(Scheduled("/login", 2000));
        case Threw(message) =>
          serverError := if message != "" then message else "Failed to reset password. Please try again.";
      }
      loading := false;
    }
  }
}
