/** The older front-end's code-entry component: the code field, the button that submits it,
    and the countdown before a new code may be requested. */
module OtpVerification {
  import opened Common

  const CodeLength := 6
  const ResendDelay := 60

  /** `value.replace(/\D/g, '').slice(0, 6)`: the ASCII digits of the input, in order, at
      most six of them. */
  function OtpFilter(value: string): (r: string)
    ensures AllDigits(r) && |r| <= CodeLength
    ensures |r| == Min(|KeepDigits(value)|, CodeLength) && r == KeepDigits(value)[..|r|]
  {
    var digits := KeepDigits(value);
    digits[..Min(|digits|, CodeLength)]
  }

  /** Once six digits have been typed, whatever is typed after them is ignored. */
  lemma OtpFilterFull(value: string, more: string)
    requires |KeepDigits(value)| >= CodeLength
    ensures OtpFilter(value + more) == OtpFilter(value)
  {
    var d, e := KeepDigits(value), KeepDigits(more);
    KeepDigitsAppend(value, more);
    var r := OtpFilter(value + more);
    assert |r| == CodeLength && r == (d + e)[..CodeLength];
    PrefixOfLonger(d, e, CodeLength);
  }

  lemma PrefixOfLonger(d: string, e: string, n: nat)
    requires n <= |d|
    ensures (d + e)[..n] == d[..n]
  {
  }

  /** Filtering twice is filtering once. */
  lemma OtpFilterIdempotent(value: string)
    ensures OtpFilter(OtpFilter(value)) == OtpFilter(value)
  {
    KeepDigitsOfDigits(OtpFilter(value));
  }

  /** A code of six digits or fewer survives the filter unchanged; anything else that is
      typed in is cut down or cleaned. */
  lemma OtpFilterKeepsCodes(value: string)
    ensures OtpFilter(value) == value <==> AllDigits(value) && |value| <= CodeLength
  {
    if AllDigits(value) { KeepDigitsOfDigits(value); }
  }

  class Component {
    var otp: string
    var timer: nat
    var canResend: bool

    /** The resend button becomes usable exactly when the countdown has run out. */
    predicate Valid()
      reads this
    {
      timer <= ResendDelay && (canResend <==> timer == 0) && AllDigits(otp) && |otp| <= CodeLength
    }

    constructor ()
      ensures Valid() && otp == "" && timer == ResendDelay && !canResend
    {
      otp, timer, canResend := "", ResendDelay, false;
    }

    /** One second of the interval: the countdown goes down by one while positive, and the
        effect that sees it reach 0 enables the resend button. */
    method Tick()
      requires Valid()
      modifies this
      ensures Valid() && otp == old(otp)
      ensures timer == if old(timer) > 0 then old(timer) - 1 else 0
    {
      if timer > 0 {
        timer := timer - 1;
        if timer == 0 {
          canResend := true;
        }
      }
    }

    /** The code field's `onChange`. */
    method Input(value: string)
      requires Valid()
      modifies this`otp
      ensures Valid() && otp == OtpFilter(value)
    {
      otp := OtpFilter(value);
    }

    /** The verify button: enabled only for a full code, it hands the code to `onVerify`. */
    method Submit() returns (verified: Option<string>)
      requires Valid()
      ensures verified.Some? <==> |otp| == CodeLength
      ensures verified.Some? ==> verified.value == otp && AllDigits(verified.value)
    {
      verified := if |otp| == CodeLength then Some(otp) else None;
    }

    /** The resend button: disabled during the countdown; when enabled, it restarts the
        countdown and calls `onResend` once. */
    method ClickResend() returns (resent: bool)
      requires Valid()
      modifies this
      ensures Valid() && otp == old(otp) && resent == old(canResend)
      ensures resent ==> timer == ResendDelay && !canResend
      ensures !resent ==> timer == old(timer) && canResend == old(canResend)
    {
      resent := canResend;
      if canResend {
        timer := ResendDelay;
        canResend := false;
      }
    }
  }
}
