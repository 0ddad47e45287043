/**
 * The password-reset page (src/app/auth/forgot-password/page.tsx): three steps,
 * request, verification and reset, each finished by a 1.5-second timer. The
 * firing of a timer is an event method; `pending` records which callback is due.
 */
module ForgotPassword {
  import opened Wrappers
  import opened Text
  import opened AuthChecks

  datatype Step = Request | Verification | Reset

  datatype Pending = NoTimer | SendingOtp | ResendingOtp | VerifyingOtp | ResettingPassword

  /** The step each timer callback moves to; resending a code and the final reset keep the step. */
  function StepAfter(p: Pending, current: Step): Step {
    match p
    case SendingOtp => Verification
    case VerifyingOtp => Reset
    case _ => current
  }

  /** The reset form opens only through a verified code. */
  lemma OnlyVerifiedCodeOpensReset(p: Pending, current: Step)
    requires current != Reset && StepAfter(p, current) == Reset
    ensures p == VerifyingOtp
  {
  }

  /** The verification form opens only through a sent code. */
  lemma OnlySentCodeOpensVerification(p: Pending, current: Step)
    requires current != Verification && StepAfter(p, current) == Verification
    ensures p == SendingOtp
  {
  }

  class ForgotPasswordPage {
    var step: Step
    var identifier: string
    var identifierType: IdentifierType
    var isLoading: bool
    var error: string
    var otp: string
    var countdown: nat
    var newPassword: string
    var confirmPassword: string
    var pending: Pending
    /** Whether `router.push('/auth/login')` has been called. */
    var redirectedToLogin: bool

    /** The code field holds at most six digits. */
    predicate Valid()
      reads this`otp
    {
      AllDigits(otp) && |otp| <= OtpLength
    }

    constructor ()
      ensures step == Request && identifier == "" && identifierType == EmailType
      ensures !isLoading && error == "" && otp == "" && countdown == 0
      ensures newPassword == "" && confirmPassword == "" && pending == NoTimer && !redirectedToLogin && Valid()
    {
      step := Request;
      identifier := "";
      identifierType := EmailType;
      isLoading := false;
      error := "";
      otp := "";
      countdown := 0;
      newPassword := "";
      confirmPassword := "";
      pending := NoTimer;
      redirectedToLogin := false;
    }

    /** Typing the identifier, followed by the effect that classifies it. */
    method TypeIdentifier(value: string)
      modifies this`identifier, this`identifierType
      ensures identifier == value && identifierType == UpdatedType(old(identifierType), value)
    {
      identifier := value;
      identifierType := UpdatedType(identifierType, value);
    }

    /** The code field's `onChange`. */
    method TypeOtp(typed: string)
      requires Valid()
      modifies this`otp
      ensures otp == OtpInput(old(otp), typed) && Valid()
    {
      otp := OtpInput(otp, typed);
    }

    method TypeNewPassword(value: string)
      modifies this`newPassword
      ensures newPassword == value
    {
      newPassword := value;
    }

    method TypeConfirmPassword(value: string)
      modifies this`confirmPassword
      ensures confirmPassword == value
    {
      confirmPassword := value;
    }

    /** `handleRequestOtp`: only an email address or a ten-digit number is accepted. */
    method RequestOtp()
      modifies this`error, this`isLoading, this`pending
      ensures !ValidIdentifier(identifier) ==>
                error == InvalidEmailOrPhoneMessage && isLoading == old(isLoading) && pending == old(pending)
      ensures ValidIdentifier(identifier) ==> error == "" && isLoading && pending == SendingOtp
    {
      if !ValidIdentifier(identifier) {
        error := InvalidEmailOrPhoneMessage;
        return;
      }
      isLoading := true;
      error := "";
      pending := SendingOtp;
    }

    /** `handleResendOtp` (its link is shown once the countdown is over). */
    method ResendOtp()
      modifies this`isLoading, this`error, this`pending
      ensures isLoading && error == "" && pending == ResendingOtp
    {
      isLoading := true;
      error := "";
      pending := ResendingOtp;
    }

    /** `handleVerifyOtp`: only the code's length is checked. */
    method VerifyOtp()
      modifies this`error, this`isLoading, this`pending
      ensures |otp| != OtpLength ==>
                error == InvalidOtpMessage && isLoading == old(isLoading) && pending == old(pending)
      ensures |otp| == OtpLength ==> error == "" && isLoading && pending == VerifyingOtp
    {
      if |otp| != OtpLength {
        error := InvalidOtpMessage;
        return;
      }
      isLoading := true;
      error := "";
      pending := VerifyingOtp;
    }

    /** `handleResetPassword`: the length check first, then the confirmation. */
    method ResetPassword()
      modifies this`error, this`isLoading, this`pending
      ensures NewPasswordError(newPassword, confirmPassword).Some? ==>
                error == NewPasswordError(newPassword, confirmPassword).value
                && isLoading == old(isLoading) && pending == old(pending)
      ensures NewPasswordError(newPassword, confirmPassword).None? ==>
                error == "" && isLoading && pending == ResettingPassword
    {
      var problem := NewPasswordError(newPassword, confirmPassword);
      if problem.Some? {
        error := problem.value;
        return;
      }
      isLoading := true;
      error := "";
      pending := ResettingPassword;
    }

    /**
     * The pending timer fires. A sent code opens the verification step with a
     * fresh countdown, a resent one restarts the countdown, a verified code
     * opens the reset step and a reset password leads to the login page.
     */
    method TimerFired()
      requires pending != NoTimer
      modifies this`isLoading, this`step, this`countdown, this`pending, this`redirectedToLogin
      ensures !isLoading && pending == NoTimer
      ensures step == StepAfter(old(pending), old(step))
      ensures countdown == if old(pending) == SendingOtp || old(pending) == ResendingOtp then ResendSeconds else old(countdown)
      ensures redirectedToLogin == (old(pending) == ResettingPassword || old(redirectedToLogin))
    {
      isLoading := false;
      step := StepAfter(pending, step);
      if pending == SendingOtp || pending == ResendingOtp {
        countdown := ResendSeconds;
      }
      if pending == ResettingPassword {
        redirectedToLogin := true;
      }
      pending := NoTimer;
    }

    /** The "Back" button of the verification step. */
    method Back()
      modifies this`step
      ensures step == Request
    {
      step := Request;
    }

    /** Where the verification step says the code went. */
    function ShownDestination(): (r: string)
      reads this`identifier, this`identifierType
      ensures identifierType == EmailType ==> r == identifier
      ensures identifierType == PhoneType && IsPhone(identifier) ==> |r| == 15 && r[4..9] == identifier[..5]
    {
      if identifierType == PhoneType && IsPhone(identifier) then MaskedPhoneShape(identifier); Destination(identifierType, identifier)
      else Destination(identifierType, identifier)
    }

    method Tick()
      modifies this`countdown
      ensures countdown == Ticked(old(countdown))
    {
      countdown := Ticked(countdown);
    }
  }
}
