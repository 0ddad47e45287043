/**
 * The login page (src/app/auth/login/page.tsx): password login and one-time-code
 * login behind two tabs. Each accepted request starts a 1.5-second timer whose
 * callback finishes the request; here the firing of that timer is an event
 * method, and the single `pending` slot records which callback is due and the
 * identifier it captured.
 */
module Login {
  import opened Wrappers
  import opened Text
  import opened AuthChecks
  import opened Store

  const InvalidIdentifierMessage := "Please enter a valid email or phone number"
  const OtpLoginMethod := "otp"
  const PasswordLoginMethod := "password"
  const AuthenticatedFlag := "true"

  datatype LoginMethod = PasswordTab | OtpTab

  /** The timer callback that is due, with the identifier it captured. */
  datatype Pending = NoTimer | SendingOtp | VerifyingOtp(identifier: string) | CheckingPassword(identifier: string)

  /** `handlePasswordLogin`'s checks, in order: the identifier first, then the password length. */
  function PasswordLoginError(identifier: string, password: string): (r: Option<string>)
    ensures r.None? <==> ValidIdentifier(identifier) && |password| >= MinPasswordLength
    ensures !ValidIdentifier(identifier) ==> r == Some(InvalidIdentifierMessage)
    ensures ValidIdentifier(identifier) && |password| < MinPasswordLength ==> r == Some(ShortPasswordMessage)
  {
    if !ValidIdentifier(identifier) then Some(InvalidIdentifierMessage)
    else if |password| < MinPasswordLength then Some(ShortPasswordMessage)
    else None
  }

  /** A ten-digit phone number with a six-character password logs in, whatever the digits. */
  lemma PhoneAndSixCharactersAccepted(phone: string, password: string)
    requires IsPhone(phone) && |password| == MinPasswordLength
    ensures PasswordLoginError(phone, password) == None
  {
  }

  class LoginPage {
    var loginMethod: LoginMethod
    var identifier: string
    var password: string
    var isLoading: bool
    var error: string
    var otpSent: bool
    var otp: string
    var countdown: nat
    var pending: Pending
    const store: LocalStore

    /** The code field holds at most six digits. */
    predicate Valid()
      reads this`otp
    {
      AllDigits(otp) && |otp| <= OtpLength
    }

    /** `isValidIdentifier`, which the effect on `identifier` recomputes after every change. */
    function IsValidIdentifier(): bool
      reads this`identifier
    {
      ValidIdentifier(identifier)
    }

    constructor (store: LocalStore)
      ensures this.store == store && loginMethod == PasswordTab
      ensures identifier == "" && password == "" && otp == "" && error == ""
      ensures !isLoading && !otpSent && countdown == 0 && pending == NoTimer && Valid()
    {
      this.store := store;
      loginMethod := PasswordTab;
      identifier := "";
      password := "";
      isLoading := false;
      error := "";
      otpSent := false;
      otp := "";
      countdown := 0;
      pending := NoTimer;
    }

    method TypeIdentifier(value: string)
      modifies this`identifier
      ensures identifier == value
    {
      identifier := value;
    }

    method TypePassword(value: string)
      modifies this`password
      ensures password == value
    {
      password := value;
    }

    /** The code field's `onChange`: digits only, and an edit past six digits is refused. */
    method TypeOtp(typed: string)
      requires Valid()
      modifies this`otp
      ensures otp == OtpInput(old(otp), typed) && Valid()
    {
      otp := OtpInput(otp, typed);
    }

    /** The password tab also closes the code form and clears the message. */
    method ChoosePasswordTab()
      modifies this`loginMethod, this`otpSent, this`error
      ensures loginMethod == PasswordTab && !otpSent && error == ""
    {
      loginMethod := PasswordTab;
      otpSent := false;
      error := "";
    }

    /** The OTP tab keeps `otpSent` as it was. */
    method ChooseOtpTab()
      modifies this`loginMethod, this`error
      ensures loginMethod == OtpTab && error == ""
    {
      loginMethod := OtpTab;
      error := "";
    }

    /** `handleSendOtp`, also the resend link. */
    method SendOtp()
      modifies this`error, this`isLoading, this`pending
      ensures !IsValidIdentifier() ==>
                error == InvalidIdentifierMessage && isLoading == old(isLoading) && pending == old(pending)
      ensures IsValidIdentifier() ==> error == "" && isLoading && pending == SendingOtp
    {
      if !IsValidIdentifier() {
        error := InvalidIdentifierMessage;
        return;
      }
      isLoading := true;
      error := "";
      pending := SendingOtp;
    }

    /** The timer of `handleSendOtp` fires: the code form opens and the resend countdown starts at 30. */
    method OtpSendFinished()
      requires pending == SendingOtp
      modifies this`isLoading, this`otpSent, this`countdown, this`pending
      ensures !isLoading && otpSent && countdown == ResendSeconds && pending == NoTimer
    {
      isLoading := false;
      otpSent := true;
      countdown := ResendSeconds;
      pending := NoTimer;
    }

    /** `handleVerifyOtp`: only the code's length is checked. */
    method VerifyOtp()
      modifies this`error, this`isLoading, this`pending
      ensures |otp| != OtpLength ==>
                error == InvalidOtpMessage && isLoading == old(isLoading) && pending == old(pending)
      ensures |otp| == OtpLength ==> error == "" && isLoading && pending == VerifyingOtp(identifier)
    {
      if |otp| != OtpLength {
        error := InvalidOtpMessage;
        return;
      }
      isLoading := true;
      error := "";
      pending := VerifyingOtp(identifier);
    }

    /** `handlePasswordLogin` */
    method PasswordLogin()
      modifies this`error, this`isLoading, this`pending
      ensures PasswordLoginError(identifier, password).Some? ==>
                error == PasswordLoginError(identifier, password).value
                && isLoading == old(isLoading) && pending == old(pending)
      ensures PasswordLoginError(identifier, password).None? ==>
                error == "" && isLoading && pending == CheckingPassword(identifier)
    {
      var problem := PasswordLoginError(identifier, password);
      if problem.Some? {
        error := problem.value;
        return;
      }
      isLoading := true;
      error := "";
      pending := CheckingPassword(identifier);
    }

    /**
     * The timer of a verified code or an accepted password fires: the session
     * is stored with the captured identifier and the path taken.
     */
    method LoginFinished()
      requires pending.VerifyingOtp? || pending.CheckingPassword?
      modifies this`isLoading, this`pending, store`isAuthenticated, store`authUser
      ensures !isLoading && pending == NoTimer
      ensures store.isAuthenticated == Some(AuthenticatedFlag)
      ensures store.authUser == Some(AuthUser(
                old(pending).identifier,
                if old(pending).VerifyingOtp? then OtpLoginMethod else PasswordLoginMethod))
    {
      isLoading := false;
      store.isAuthenticated := Some(AuthenticatedFlag);
      var how := if pending.VerifyingOtp? then OtpLoginMethod else PasswordLoginMethod;
      store.authUser := Some(AuthUser(pending.identifier, how));
      pending := NoTimer;
    }

    /** The one-second countdown timer fires (it runs only while the countdown is positive). */
    method Tick()
      modifies this`countdown
      ensures countdown == Ticked(old(countdown))
    {
      countdown := Ticked(countdown);
    }
  }
}
