/** The older front-end's forgot-password form: one address field, checked on the client,
    then sent; success shows a confirmation and moves on to the reset form with the address. */
module ForgotPasswordForm {
  import opened Common
  import SignupForm

  /** The client check before the request, in its order. */
  function EmailCheck(email: string): (err: Option<string>)
    ensures err.None? <==> email != "" && SignupForm.EmailPatternMatches(email)
    ensures email == "" ==> err == Some("Email is required")
    ensures email != "" && !SignupForm.EmailPatternMatches(email) ==> err == Some("Email is invalid")
  {
    if email == "" then Some("Email is required")
    else if !SignupForm.EmailPatternMatches(email) then Some("Email is invalid")
    else None
  }

  datatype CallOutcome = Resolved | Threw(message: string)

  /** A navigation scheduled with `setTimeout`, carrying the address in its state. */
  datatype Scheduled = Scheduled(path: string, stateEmail: string, delayMs: nat)

  const FallbackMessage := "Failed to send reset link. Please try again."

  class Form {
    var email: string
    var error: string
    var loading: bool
    var success: bool
    var scheduled: Option<Scheduled>
    /** The server-error text the failure path means to show. The component never declares
        this state, so as written nothing can set it. */
    var serverError: string

    /** The error on display is always the check's verdict on the current address, or
        nothing: it is set only by a failed check and cleared by every edit. */
    predicate Valid()
      reads this
    {
      error == "" || Some(error) == EmailCheck(email)
    }

    /** Whether the user sees any outcome of a submission. */
    predicate ShowsFeedback()
      reads this
    {
      success || error != "" || serverError != ""
    }

    constructor ()
      ensures Valid() && email == "" && error == "" && !loading && !success && scheduled.None? && serverError == ""
    {
      email, error, loading, success, scheduled, serverError := "", "", false, false, None, "";
    }

    /** The field's `onChange`: the new address, and no error. */
    method Edit(value: string)
      requires Valid()
      modifies this
      ensures Valid() && email == value && error == ""
      ensures loading == old(loading) && success == old(success) && scheduled == old(scheduled)
      ensures serverError == old(serverError)
    {
      email := value;
      error := "";
    }

    /** `handleSubmit` as written. A failed check shows its message and sends nothing. A
        successful request shows the confirmation and schedules the reset form with the
        address after 2000 ms. On a failed request the `catch` block calls the undeclared
        `setServerError`, which throws in turn: only the `finally` block still runs, so the
        user is told nothing. */
    method HandleSubmitAsWritten(outcome: CallOutcome) returns (sent: Option<string>)
      requires Valid()
      modifies this
      ensures Valid() && email == old(email) && serverError == old(serverError)
      ensures EmailCheck(email).Some? ==>
                && sent.None? && error == EmailCheck(email).value
                && loading == old(loading) && success == old(success) && scheduled == old(scheduled)
      ensures EmailCheck(email).None? ==> sent == Some(email) && !loading && error == ""
      ensures EmailCheck(email).None? && outcome.Resolved? ==>
                success && scheduled == Some(Scheduled("/reset-password", email, 2000))
      ensures EmailCheck(email).None? && outcome.Threw? ==>
                success == old(success) && scheduled == old(scheduled)
      ensures EmailCheck(email).None? && outcome.Threw? && !old(ShowsFeedback()) ==> !ShowsFeedback()
    {
      var err := EmailCheck(email);
      if err.Some? {
        error := err.value;
        return None;
      }
      loading := true;
      sent := Some(email);
      if outcome.Resolved? {
        success := true;
        scheduled := Some(Scheduled("/reset-password", email, 2000));
      }
      loading := false;
    }

    /** `handleSubmit` with the failure path showing the error's message, as intended: every
        request that is sent ends with visible feedback. */
    method HandleSubmit(outcome: CallOutcome) returns (sent: Option<string>)
      requires Valid()
      modifies this
      ensures Valid() && email == old(email)
      ensures EmailCheck(email).Some? ==>
                && sent.None? && error == EmailCheck(email).value && serverError == old(serverError)
                && loading == old(loading) && success == old(success) && scheduled == old(scheduled)
      ensures EmailCheck(email).None? ==> sent == Some(email) && !loading && error == ""
      ensures EmailCheck(email).None? && outcome.Resolved? ==>
                success && scheduled == Some(Scheduled("/reset-password", email, 2000))
                && serverError == old(serverError)
      ensures EmailCheck(email).None? && outcome.Threw? ==>
                success == old(success) && scheduled == old(scheduled)
                && serverError == (if outcome.message != "" then outcome.message else FallbackMessage)
      ensures ShowsFeedback()
    {
      var err := EmailCheck(email);
      if err.Some? {
        error := err.value;
        return None;
      }
      loading := true;
      sent := Some(email);
      match outcome {
        case Resolved =>
          success := true;
          scheduled := Some(Scheduled("/reset-password", email, 2000));
        case Threw(message) =>
          serverError := if message != "" then message else FallbackMessage;
      }
      loading := false;
    }
  }
}
