/** The newer front-end's two-step password reset page: first the e-mail address is sent to
    obtain a code, then the code and the new password. The reply of each request (after the
    API client's interceptor) is a parameter of the handler that sends it. */
module ForgotPasswordPage {
  import opened Common
  import opened ApiClient

  datatype Step = RequestStep | ResetStep

  /** The toast a handler raises. */
  datatype Toast = SuccessToast(text: string) | ErrorToast(text: string)

  datatype ResetRequest = ResetRequest(email: string, otp: string, newPassword: string, confirmPassword: string)

  const MinPasswordLength := 6

  /** The checks made before the reset request, in their order: the confirmation first, then
      the length. */
  function ResetCheck(newPassword: string, confirmPassword: string): (err: Option<string>)
    ensures err.None? <==> newPassword == confirmPassword && |newPassword| >= MinPasswordLength
    ensures newPassword != confirmPassword ==> err == Some("Passwords do not match")
    ensures newPassword == confirmPassword && |newPassword| < MinPasswordLength ==>
              err == Some("Password must be at least 6 characters")
  {
    if newPassword != confirmPassword then Some("Passwords do not match")
    else if |newPassword| < MinPasswordLength then Some("Password must be at least 6 characters")
    else None
  }

  /** The error text of a failed request: the server's or transport's message when there is
      one, otherwise the page's fallback. */
  function FailureText<T>(reply: Reply<T>, fallback: string): (t: string)
    requires reply.HttpFailure?
    ensures reply.detail != "" ==> t == reply.detail
    ensures reply.detail == "" ==> t == fallback
    ensures fallback != "" ==> t != ""
  {
    if reply.detail != "" then reply.detail else fallback
  }

  class Page {
    var step: Step
    var email: string
    var otp: string
    var newPassword: string
    var confirmPassword: string
    var isLoading: bool
    /** The page the router was sent to, if any. */
    var location: Option<string>

    constructor ()
      ensures step == RequestStep && !isLoading && location.None?
      ensures email == "" && otp == "" && newPassword == "" && confirmPassword == ""
    {
      step, isLoading, location := RequestStep, false, None;
      email, otp, newPassword, confirmPassword := "", "", "", "";
    }

    /** The controlled inputs. */
    method Edit(newEmail: string, newOtp: string, newPass: string, newConfirm: string)
      modifies this
      ensures email == newEmail && otp == newOtp && newPassword == newPass && confirmPassword == newConfirm
      ensures step == old(step) && isLoading == old(isLoading) && location == old(location)
    {
      email, otp, newPassword, confirmPassword := newEmail, newOtp, newPass, newConfirm;
    }

    /** `handleRequestReset`: sends the address; the page moves on to the reset step only on
        a reply with `success` true, and the loading flag is down again afterwards. */
    method RequestReset(reply: Reply<MessageResponse>) returns (sentEmail: string, toast: Toast)
      modifies this
      ensures sentEmail == email && !isLoading
      ensures step == (if reply.Received? && reply.body.success then ResetStep else old(step))
      ensures toast.SuccessToast? <==> reply.Received? && reply.body.success
      ensures reply.Received? && reply.body.success ==> toast == SuccessToast("Reset code sent to your email!")
      ensures reply.Received? && !reply.body.success ==>
                toast == ErrorToast(if reply.body.message != "" then reply.body.message else "Failed to send reset code")
      ensures reply.HttpFailure? ==> toast == ErrorToast(FailureText(reply, "Failed to send reset code"))
      ensures email == old(email) && otp == old(otp) && newPassword == old(newPassword)
      ensures confirmPassword == old(confirmPassword) && location == old(location)
    {
      isLoading := true;
      sentEmail := email;
      if reply.Received? {
        if reply.body.success {
          toast := SuccessToast("Reset code sent to your email!");
          step := ResetStep;
        } else {
          toast := ErrorToast(if reply.body.message != "" then reply.body.message else "Failed to send reset code");
        }
      } else {
        toast := ErrorToast(FailureText(reply, "Failed to send reset code"));
      }
      isLoading := false;
    }

    /** `handleResetPassword`: a failed client check raises its toast and changes nothing;
        otherwise the request goes out, a successful reply sends the router to the login
        page, and the loading flag is down again afterwards. */
    method ResetPassword(reply: Reply<MessageResponse>) returns (sent: Option<ResetRequest>, toast: Toast)
      modifies this
      ensures ResetCheck(newPassword, confirmPassword).Some? ==>
                && sent.None? && toast == ErrorToast(ResetCheck(newPassword, confirmPassword).value)
                && isLoading == old(isLoading) && location == old(location)
      ensures ResetCheck(newPassword, confirmPassword).None? ==>
                && sent == Some(ResetRequest(email, otp, newPassword, confirmPassword)) && !isLoading
                && location == (if reply.Received? && reply.body.success then Some(LoginPage) else old(location))
                && (toast.SuccessToast? <==> reply.Received? && reply.body.success)
      ensures ResetCheck(newPassword, confirmPassword).None? && reply.Received? && reply.body.success ==>
                toast == SuccessToast("Password reset successfully!")
      ensures ResetCheck(newPassword, confirmPassword).None? && reply.Received? && !reply.body.success ==>
                toast == ErrorToast(if reply.body.message != "" then reply.body.message else "Password reset failed")
      ensures ResetCheck(newPassword, confirmPassword).None? && reply.HttpFailure? ==>
                toast == ErrorToast(FailureText(reply, "Password reset failed"))
      ensures step == old(step) && email == old(email) && otp == old(otp)
      ensures newPassword == old(newPassword) && confirmPassword == old(confirmPassword)
    {
      var err := ResetCheck(newPassword, confirmPassword);
      if err.Some? {
        return None, ErrorToast(err.value);
      }
      isLoading := true;
      sent := Some(ResetRequest(email, otp, newPassword, confirmPassword));
      if reply.Received? {
        if reply.body.success {
          toast := SuccessToast("Password reset successfully!");
          location := Some(LoginPage);
        } else {
          toast := ErrorToast(if reply.body.message != "" then reply.body.message else "Password reset failed");
        }
      } else {
        toast := ErrorToast(FailureText(reply, "Password reset failed"));
      }
      isLoading := false;
    }
  }
}
