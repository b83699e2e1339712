/** The older front-end's sign-up form: client-side validation, the password-strength meter,
    and the form state around the sign-up and e-mail verification calls. */
module SignupForm {
  import opened Common

  /** `p` and `q` locate a match of `/\S+@\S+\.\S+/`: a non-space character before the `@`
      at `p`, only non-space characters (at least one) between it and the `.` at `q`, and a
      non-space character after that. */
  predicate EmailShapeAt(s: string, p: int, q: int)
    requires 0 < p < q < |s| - 1
  {
    && !IsSpace(Js, s[p - 1]) && s[p] == '@' && p + 1 < q
    && (forall k :: p < k < q ==> !IsSpace(Js, s[k]))
    && s[q] == '.' && !IsSpace(Js, s[q + 1])
  }

  /** `/\S+@\S+\.\S+/.test(s)`: the pattern is not anchored, so it holds when some
      substring matches. */
  predicate EmailPatternMatches(s: string)
  {
    exists p, q | 0 < p < q < |s| - 1 :: EmailShapeAt(s, p, q)
  }

  /** The pattern accepts every `local@domain.tld` whose three parts are non-empty and free of
      white space, and accepts nothing without an `@` followed later by a `.`. */
  lemma {:induction false} EmailPatternShape(local: string, domain: string, tld: string)
    requires local != [] && domain != [] && tld != []
    requires forall k :: 0 <= k < |local| ==> !IsSpace(Js, local[k])
    requires forall k :: 0 <= k < |domain| ==> !IsSpace(Js, domain[k])
    requires !IsSpace(Js, tld[0])
    ensures EmailPatternMatches(local + "@" + domain + "." + tld)
  {
    var s := local + "@" + domain + "." + tld;
    var p := |local|;
    var q := |local| + 1 + |domain|;
    assert s[p - 1] == local[p - 1] && s[q + 1] == tld[0];
    assert forall k :: p < k < q ==> s[k] == domain[k - p - 1];
    assert EmailShapeAt(s, p, q);
  }

  lemma EmailPatternNeedsAtThenDot(s: string)
    requires EmailPatternMatches(s)
    ensures exists p, q :: 0 < p < q < |s| - 1 && s[p] == '@' && s[q] == '.'
  {
    var p, q :| 0 < p < q < |s| - 1 && EmailShapeAt(s, p, q);
  }

  datatype Field = EmailField | PasswordField | ConfirmPasswordField | FullNameField

  /** `validate()`: one message per failing field, the emptiness check of each field first. */
  function Validate(email: string, password: string, confirm: string): (errors: map<Field, string>)
    ensures FullNameField !in errors
    ensures EmailField in errors <==> email == "" || !EmailPatternMatches(email)
    ensures EmailField in errors ==>
              errors[EmailField] == (if email == "" then "Email is required" else "Email is invalid")
    ensures PasswordField in errors <==> |password| < 8
    ensures PasswordField in errors ==>
              errors[PasswordField] == (if password == "" then "Password is required"
                                        else "Password must be at least 8 characters")
    ensures ConfirmPasswordField in errors <==> confirm == "" || confirm != password
    ensures ConfirmPasswordField in errors ==>
              errors[ConfirmPasswordField] == (if confirm == "" then "Please confirm your password"
                                               else "Passwords do not match")
  {
    var e1 := if email == "" then map[EmailField := "Email is required"]
              else if !EmailPatternMatches(email) then map[EmailField := "Email is invalid"]
              else map[];
    var e2 := if password == "" then e1[PasswordField := "Password is required"]
              else if |password| < 8 then e1[PasswordField := "Password must be at least 8 characters"]
              else e1;
    if confirm == "" then e2[ConfirmPasswordField := "Please confirm your password"]
    else if password != confirm then e2[ConfirmPasswordField := "Passwords do not match"]
    else e2
  }

  predicate HasLowerAndUpper(p: string)
  {
    (exists i | 0 <= i < |p| :: IsAsciiLower(p[i])) && (exists i | 0 <= i < |p| :: IsAsciiUpper(p[i]))
  }

  predicate HasDigit(p: string)
  {
    exists i | 0 <= i < |p| :: IsAsciiDigit(p[i])
  }

  predicate HasSymbol(p: string)
  {
    exists i | 0 <= i < |p| :: !IsAsciiAlnum(p[i])
  }

  const StrengthLabels := ["Weak", "Fair", "Good", "Strong", "Very Strong"]

  /** The meter's reading: a score and, where `labels[Math.min(strength - 1, 4)]` exists,
      its label (`None` stands for the `undefined` a score of 0 gives). */
  datatype Strength = Strength(score: nat, text: Option<string>)

  /** `getPasswordStrength()`: a point each for a length of at least 8, a length of at least
      12, both letter cases, a digit and a character that is neither letter nor digit. */
  function PasswordStrength(p: string): (s: Strength)
    ensures s.score <= 5
    ensures p == "" ==> s == Strength(0, Some(""))
    ensures p != "" ==> (s.text.Some? <==> s.score > 0)
    ensures p != "" && s.score > 0 ==> s.text.value == StrengthLabels[s.score - 1]
    ensures s.score == 0 <==> |p| < 8 && !HasLowerAndUpper(p) && !HasDigit(p) && !HasSymbol(p)
    ensures s.score == 5 <==> |p| >= 12 && HasLowerAndUpper(p) && HasDigit(p) && HasSymbol(p)
  {
    if p == "" then Strength(0, Some(""))
    else
      var score := (if |p| >= 8 then 1 else 0) + (if |p| >= 12 then 1 else 0)
                   + (if HasLowerAndUpper(p) then 1 else 0) + (if HasDigit(p) then 1 else 0)
                   + (if HasSymbol(p) then 1 else 0);
      var index := Min(score - 1, 4);
      Strength(score, if 0 <= index then Some(StrengthLabels[index]) else None)
  }

  /** The meter is drawn only for a non-empty password of positive score, so it always has a
      label to show. */
  lemma MeterAlwaysLabelled(p: string)
    requires p != "" && PasswordStrength(p).score > 0
    ensures PasswordStrength(p).text.Some? && PasswordStrength(p).text.value in StrengthLabels
  {
  }

  /** How a call through the context or the service ends: resolved, or thrown with the
      error's message. */
  datatype CallOutcome = Resolved | Threw(message: string)

  datatype SignupRequest = SignupRequest(email: string, password: string, fullName: string)

  const AllFields := {EmailField, PasswordField, ConfirmPasswordField, FullNameField}

  class Form {
    var formData: map<Field, string>
    var errors: map<Field, string>
    var loading: bool
    var serverError: string
    var showOtp: bool
    /** The page the router was sent to, if any. */
    var location: Option<string>

    predicate Valid()
      reads this
    {
      formData.Keys == AllFields
    }

    constructor ()
      ensures Valid() && errors == map[] && !loading && serverError == "" && !showOtp && location.None?
      ensures forall f | f in formData :: formData[f] == ""
    {
      formData := map[EmailField := "", PasswordField := "", ConfirmPasswordField := "", FullNameField := ""];
      errors, loading, serverError, showOtp, location := map[], false, "", false, None;
    }

    /** `handleChange`: the edited field takes the value, its error (if it had a non-empty
        one) is cleared, the server error is cleared, and the other fields' errors stay. */
    method HandleChange(name: Field, value: string)
      requires Valid()
      modifies this
      ensures Valid() && formData == old(formData)[name := value] && serverError == ""
      ensures errors == (if name in old(errors) && old(errors)[name] != "" then old(errors)[name := ""] else old(errors))
      ensures loading == old(loading) && showOtp == old(showOtp) && location == old(location)
    {
      formData := formData[name := value];
      if name in errors && errors[name] != "" {
        errors := errors[name := ""];
      }
      serverError := "";
    }

    /** `handleSubmit`: the sign-up call is made exactly when validation finds nothing; a
        failed validation replaces the errors and changes nothing else. */
    method HandleSubmit(outcome: CallOutcome) returns (sent: Option<SignupRequest>)
      requires Valid()
      modifies this
      ensures Valid() && formData == old(formData) && location == old(location)
      ensures var v := Validate(old(formData)[EmailField], old(formData)[PasswordField], old(formData)[ConfirmPasswordField]);
              && (sent.Some? <==> v == map[])
              && (v != map[] ==> errors == v && loading == old(loading) && serverError == old(serverError)
                                 && showOtp == old(showOtp))
              && (v == map[] ==>
                    && sent.value == SignupRequest(formData[EmailField], formData[PasswordField], formData[FullNameField])
                    && errors == old(errors) && !loading
                    && showOtp == (outcome.Resolved? || old(showOtp))
                    && serverError == (if outcome.Resolved? then ""
                                       else if outcome.message != "" then outcome.message
                                       else "Signup failed. Please try again."))
    {
      var v := Validate(formData[EmailField], formData[PasswordField], formData[ConfirmPasswordField]);
      if v != map[] {
        errors := v;
        return None;
      }
      loading := true;
      serverError := "";
      sent := Some(SignupRequest(formData[EmailField], formData[PasswordField], formData[FullNameField]));
      match outcome {
        case Resolved => showOtp := true;
        case Threw(message) => serverError := if message != "" then message else "Signup failed. Please try again.";
      }
      loading := false;
    }

    /** `handleVerifyOTP`: a verified address goes to the login page. */
    method HandleVerifyOtp(otp: string, outcome: CallOutcome) returns (sentEmail: string)
      requires Valid()
      modifies this
      ensures Valid() && sentEmail == formData[EmailField] && !loading
      ensures formData == old(formData) && errors == old(errors) && showOtp == old(showOtp)
      ensures outcome.Resolved? ==> location == Some("/login") && serverError == ""
      ensures outcome.Threw? ==>
                location == old(location)
                && serverError == (if outcome.message != "" then outcome.message else "Verification failed. Please try again.")
    {
      loading := true;
      serverError := "";
      sentEmail := formData[EmailField];
      match outcome {
        case Resolved => location := Some("/login");
        case Threw(message) => serverError := if message != "" then message else "Verification failed. Please try again.";
      }
      loading := false;
    }

    /** `handleResendOTP`: repeats the sign-up call; only a failure shows. */
    method HandleResendOtp(outcome: CallOutcome) returns (sent: SignupRequest)
      requires Valid()
      modifies this
      ensures Valid() && sent == SignupRequest(formData[EmailField], formData[PasswordField], formData[FullNameField])
      ensures formData == old(formData) && errors == old(errors) && loading == old(loading)
      ensures showOtp == old(showOtp) && location == old(location)
      ensures serverError == (if outcome.Resolved? then old(serverError)
                              else if outcome.message != "" then outcome.message else "Failed to resend OTP.")
    {
      sent := SignupRequest(formData[EmailField], formData[PasswordField], formData[FullNameField]);
      if outcome.Threw? {
        serverError := if outcome.message != "" then outcome.message else "Failed to resend OTP.";
      }
    }
  }
}
