/**
 * The sign-up page (src/app/auth/signup/page.tsx): a details form whose
 * checks run in a fixed order, then a verification step whose accepted code
 * appends the new user to `registeredUsers` in the browser's storage. Each
 * 1.5-second timer is an event method; `pending` records the callback that is
 * due and the values it captured.
 */
module Signup {
  import opened Wrappers
  import opened Text
  import opened AuthChecks
  import opened Store

  const ShortNameMessage := "Name must be at least 3 characters"

  datatype Step = Details | Verification

  /** The timer callback that is due; account creation captures the form's values. */
  datatype Pending =
    | NoTimer
    | SendingOtp
    | ResendingOtp
    | CreatingAccount(name: string, identifier: string, identifierType: IdentifierType)

  /**
   * `handleSignupSubmit`'s checks, in order: the trimmed name, the identifier,
   * the password length, the confirmation. The first failing one's message.
   */
  function SubmitError(name: string, identifier: string, password: string, confirmation: string): Option<string> {
    if |Trim(name)| < MinNameLength then Some(ShortNameMessage)
    else if !ValidIdentifier(identifier) then Some(InvalidEmailOrPhoneMessage)
    else NewPasswordError(password, confirmation)
  }

  /** A submission passes exactly when every check does, and the first check that fails names the message. */
  lemma SubmitChecksInOrder(name: string, identifier: string, password: string, confirmation: string)
    ensures var r := SubmitError(name, identifier, password, confirmation);
            (r.None? <==> |Trim(name)| >= MinNameLength && ValidIdentifier(identifier)
                          && |password| >= MinPasswordLength && password == confirmation)
            && (|Trim(name)| < MinNameLength ==> r == Some(ShortNameMessage))
            && (|Trim(name)| >= MinNameLength && !ValidIdentifier(identifier) ==> r == Some(InvalidEmailOrPhoneMessage))
            && (|Trim(name)| >= MinNameLength && ValidIdentifier(identifier) && |password| < MinPasswordLength ==>
                  r == Some(ShortPasswordMessage))
            && ((|Trim(name)| >= MinNameLength && ValidIdentifier(identifier) && |password| >= MinPasswordLength
                 && password != confirmation) ==> r == Some(PasswordMismatchMessage))
  {
  }

  /** The stored record: the identifier goes to `email` or to `phone` by its type, the other is empty. */
  function NewUser(name: string, identifier: string, t: IdentifierType): (r: UserRecord)
    ensures r.name == name
    ensures t == EmailType ==> r.email == identifier && r.phone == ""
    ensures t == PhoneType ==> r.email == "" && r.phone == identifier
  {
    UserRecord(name, if t == EmailType then identifier else "", if t == PhoneType then identifier else "")
  }

  /**
   * `registeredUsers` after one more user: nothing stored counts as the empty
   * list; text that does not parse makes `JSON.parse` throw inside the timer
   * callback, so nothing is written.
   */
  function Registered(stored: Stored<seq<UserRecord>>, user: UserRecord): (r: Stored<seq<UserRecord>>)
    ensures stored.Corrupt? ==> r == stored
    ensures stored.Absent? ==> r == Parsed([user])
    ensures stored.Parsed? ==> r.Parsed? && |r.value| == |stored.value| + 1
                               && r.value[..|stored.value|] == stored.value && r.value[|stored.value|] == user
  {
    match stored
    case Absent => Parsed([user])
    case Corrupt => Corrupt
    case Parsed(users) => Parsed(users + [user])
  }

  /** Registering never loses or reorders the users already stored. */
  lemma RegisteredKeepsEarlierUsers(stored: Stored<seq<UserRecord>>, a: UserRecord, b: UserRecord)
    requires !stored.Corrupt?
    ensures Registered(Registered(stored, a), b).value == (if stored.Parsed? then stored.value else []) + [a, b]
  {
  }

  class SignupPage {
    var step: Step
    var name: string
    var identifier: string
    var identifierType: IdentifierType
    var password: string
    var confirmPassword: string
    var isLoading: bool
    var error: string
    var otp: string
    var countdown: nat
    var pending: Pending
    /** Whether `router.push('/auth/login')` has been called. */
    var redirectedToLogin: bool
    const store: LocalStore

    /** The code field holds at most six digits. */
    predicate Valid()
      reads this`otp
    {
      AllDigits(otp) && |otp| <= OtpLength
    }

    constructor (store: LocalStore)
      ensures this.store == store && step == Details && identifierType == EmailType
      ensures name == "" && identifier == "" && password == "" && confirmPassword == "" && otp == ""
      ensures error == "" && !isLoading && countdown == 0 && pending == NoTimer && !redirectedToLogin && Valid()
    {
      this.store := store;
      step := Details;
      name := "";
      identifier := "";
      identifierType := EmailType;
      password := "";
      confirmPassword := "";
      isLoading := false;
      error := "";
      otp := "";
      countdown := 0;
      pending := NoTimer;
      redirectedToLogin := false;
    }

    method TypeName(value: string)
      modifies this`name
      ensures name == value
    {
      name := value;
    }

    /** Typing the identifier, followed by the effect that classifies it. */
    method TypeIdentifier(value: string)
      modifies this`identifier, this`identifierType
      ensures identifier == value && identifierType == UpdatedType(old(identifierType), value)
    {
      identifier := value;
      identifierType := UpdatedType(identifierType, value);
    }

    method TypePassword(value: string)
      modifies this`password
      ensures password == value
    {
      password := value;
    }

    method TypeConfirmPassword(value: string)
      modifies this`confirmPassword
      ensures confirmPassword == value
    {
      confirmPassword := value;
    }

    /** The code field's `onChange`. */
    method TypeOtp(typed: string)
      requires Valid()
      modifies this`otp
      ensures otp == OtpInput(old(otp), typed) && Valid()
    {
      otp := OtpInput(otp, typed);
    }

    /** `handleSignupSubmit`: a failed check shows its message and the step stays `details`. */
    method Submit()
      modifies this`error, this`isLoading, this`pending
      ensures var problem := old(SubmitError(name, identifier, password, confirmPassword));
              error == (if problem.Some? then problem.value else "")
              && isLoading == (problem.None? || old(isLoading))
              && pending == (if problem.Some? then old(pending) else SendingOtp)
    {
      var problem := SubmitError(name, identifier, password, confirmPassword);
      error := if problem.Some? then problem.value else "";
      isLoading := problem.None? || isLoading;
      pending := if problem.Some? then pending else SendingOtp;
    }

    /** The timer of an accepted submit fires: on to verification, with the countdown at 30. */
    method OtpSendFinished()
      requires pending == SendingOtp
      modifies this`isLoading, this`step, this`countdown, this`pending
      ensures !isLoading && step == Verification && countdown == ResendSeconds && pending == NoTimer
    {
      isLoading := false;
      step := Verification;
      countdown := ResendSeconds;
      pending := NoTimer;
    }

    /** `handleResendOtp` (its link is shown once the countdown is over). */
    method ResendOtp()
      modifies this`isLoading, this`error, this`pending
      ensures isLoading && error == "" && pending == ResendingOtp
    {
      isLoading := true;
      error := "";
      pending := ResendingOtp;
    }

    /** The resend timer fires: the countdown starts again at 30. */
    method OtpResendFinished()
      requires pending == ResendingOtp
      modifies this`isLoading, this`countdown, this`pending
      ensures !isLoading && countdown == ResendSeconds && pending == NoTimer
    {
      isLoading := false;
      countdown := ResendSeconds;
      pending := NoTimer;
    }

    /** `handleVerifyOtp`: only the code's length is checked. */
    method VerifyOtp()
      modifies this`error, this`isLoading, this`pending
      ensures |otp| != OtpLength ==>
                error == InvalidOtpMessage && isLoading == old(isLoading) && pending == old(pending)
      ensures |otp| == OtpLength ==>
                error == "" && isLoading && pending == CreatingAccount(name, identifier, identifierType)
    {
      if |otp| != OtpLength {
        error := InvalidOtpMessage;
        return;
      }
      isLoading := true;
      error := "";
      pending := CreatingAccount(name, identifier, identifierType);
    }

    /**
     * The verification timer fires: exactly one record, built from the values
     * captured when the code was submitted, is appended to `registeredUsers`,
     * and the page moves on to the login page. Stored text that does not parse
     * makes `JSON.parse` throw after the loading flag is cleared, so nothing is
     * written and the page stays where it is.
     */
    method AccountCreated()
      requires pending.CreatingAccount?
      modifies this`isLoading, this`pending, this`redirectedToLogin, store`registeredUsers
      ensures !isLoading && pending == NoTimer
      ensures store.registeredUsers == Registered(old(store.registeredUsers),
                NewUser(old(pending).name, old(pending).identifier, old(pending).identifierType))
      ensures redirectedToLogin == (old(redirectedToLogin) || !old(store.registeredUsers).Corrupt?)
    {
      var due := pending;
      isLoading := false;
      pending := NoTimer;
      if store.registeredUsers.Corrupt? {
        return;
      }
      var user := NewUser(due.name, due.identifier, due.identifierType);
      store.registeredUsers := Registered(store.registeredUsers, user);
      redirectedToLogin := true;
    }

    /** The "Back" button of the verification step. */
    method Back()
      modifies this`step
      ensures step == Details
    {
      step := Details;
    }

    /** Where the verification step says the code went. */
    function ShownDestination(): (r: string)
      reads this`identifier, this`identifierType
      ensures identifierType == EmailType ==> r == identifier
      ensures identifierType == PhoneType && IsPhone(identifier) ==> |r| == 15 && r[4..9] == identifier[..5]
    {
      if identifierType == PhoneType && IsPhone(identifier) then MaskedPhoneShape(identifier); Destination(identifierType, identifier)
      else Destination(identifierType, identifier)
    }

    method Tick()
      modifies this`countdown
      ensures countdown == Ticked(old(countdown))
    {
      countdown := Ticked(countdown);
    }
  }
}
