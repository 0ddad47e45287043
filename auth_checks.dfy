/**
 * What the three authentication pages (src/app/auth/login, signup and
 * forgot-password) share: the identifier patterns, the one-time-code length,
 * the password length, the resend countdown and the messages they show.
 */
module AuthChecks {
  import opened Wrappers
  import opened Text

  const OtpLength := 6
  const MinPasswordLength := 6
  const MinNameLength := 3
  /** The seconds before a code may be sent again. */
  const ResendSeconds: nat := 30

  const InvalidOtpMessage := "Please enter a valid 6-digit OTP"
  const ShortPasswordMessage := "Password must be at least 6 characters"
  const PasswordMismatchMessage := "Passwords do not match"
  /** The sign-up and password-reset pages' message; the login page words it differently. */
  const InvalidEmailOrPhoneMessage := "Please enter a valid email or 10-digit phone number"

  /** `[^\s@]` */
  predicate IsEmailChar(c: char) { !IsWhitespace(c) && c != '@' }

  /**
   * `s` splits as `a@b.c` at the `@` in position `i` and the `.` in position
   * `p`, with `a`, `b` and `c` non-empty and every other character in `[^\s@]`.
   */
  predicate EmailSplit(s: string, i: nat, p: nat) {
    0 < i && i + 1 < p && p + 1 < |s| && s[i] == '@' && s[p] == '.'
    && forall j :: 0 <= j < |s| && j != i ==> IsEmailChar(s[j])
  }

  /** `/^[^\s@]+@[^\s@]+\.[^\s@]+$/.test(s)` */
  predicate IsEmail(s: string) {
    exists i, p | 0 <= i < |s| && 0 <= p < |s| :: EmailSplit(s, i, p)
  }

  /** `/^[0-9]{10}$/.test(s)` */
  predicate IsPhone(s: string) {
    |s| == 10 && AllDigits(s)
  }

  /** An email address or a ten-digit phone number. */
  predicate ValidIdentifier(s: string) {
    IsEmail(s) || IsPhone(s)
  }

  /** An email address holds exactly one `@`, at its split point. */
  lemma EmailHasOneAt(s: string, i: nat, p: nat)
    requires EmailSplit(s, i, p)
    ensures forall j :: 0 <= j < |s| ==> (s[j] == '@' <==> j == i)
  {
  }

  /** No identifier is both: a phone number has no `@`. */
  lemma EmailOrPhoneNotBoth(s: string)
    ensures !(IsEmail(s) && IsPhone(s))
  {
    if IsEmail(s) {
      var i, p :| 0 <= i < |s| && 0 <= p < |s| && EmailSplit(s, i, p);
      assert !IsDigit(s[i]);
    }
  }

  /** The shortest address shape `a@b.c` passes. */
  lemma ShortestEmailAccepted(a: char, b: char, c: char)
    requires IsEmailChar(a) && IsEmailChar(b) && IsEmailChar(c)
    ensures IsEmail([a, '@', b, '.', c])
  {
    assert EmailSplit([a, '@', b, '.', c], 1, 3);
  }

  /** A text without a `.` is no address: the part after the `@` needs one. */
  lemma NoDotNoEmail(s: string)
    requires forall j :: 0 <= j < |s| ==> s[j] != '.'
    ensures !IsEmail(s)
  {
  }

  /** One tick of the resend countdown: a one-second timer runs only while it is positive. */
  function Ticked(countdown: nat): (r: nat)
    ensures countdown > 0 ==> r == countdown - 1
    ensures countdown == 0 ==> r == 0
  {
    if countdown > 0 then countdown - 1 else 0
  }

  /** The countdown after `n` ticks. */
  function TickedTimes(countdown: nat, n: nat): nat {
    if n == 0 then countdown else Ticked(TickedTimes(countdown, n - 1))
  }

  /** The countdown loses one per tick and stays at zero once it gets there. */
  lemma {:induction false} CountdownStopsAtZero(countdown: nat, n: nat)
    ensures TickedTimes(countdown, n) == if n <= countdown then countdown - n else 0
  {
    if n > 0 {
      CountdownStopsAtZero(countdown, n - 1);
    }
  }

  /** A fresh countdown reaches zero after exactly thirty ticks. */
  lemma ResendAfterThirtyTicks()
    ensures TickedTimes(ResendSeconds, ResendSeconds) == 0
    ensures forall n :: 0 <= n < ResendSeconds ==> TickedTimes(ResendSeconds, n) > 0
  {
    CountdownStopsAtZero(ResendSeconds, ResendSeconds);
    forall n | 0 <= n < ResendSeconds ensures TickedTimes(ResendSeconds, n) > 0 {
      CountdownStopsAtZero(ResendSeconds, n);
    }
  }

  /** The checks of a new password, in order: length first, then the confirmation. */
  function NewPasswordError(password: string, confirmation: string): (r: Option<string>)
    ensures r.None? <==> |password| >= MinPasswordLength && password == confirmation
    ensures |password| < MinPasswordLength ==> r == Some(ShortPasswordMessage)
    ensures |password| >= MinPasswordLength && password != confirmation ==> r == Some(PasswordMismatchMessage)
  {
    if |password| < MinPasswordLength then Some(ShortPasswordMessage)
    else if password != confirmation then Some(PasswordMismatchMessage)
    else None
  }

  /** The OTP field keeps only digits and at most six of them (`DigitInput` with limit 6). */
  function OtpInput(current: string, typed: string): (r: string)
    ensures AllDigits(current) && |current| <= OtpLength ==> AllDigits(r) && |r| <= OtpLength
    ensures |DigitsOnly(typed)| <= OtpLength ==> r == DigitsOnly(typed)
    ensures |DigitsOnly(typed)| > OtpLength ==> r == current
  {
    DigitInput(current, typed, OtpLength)
  }

  /** Which field the sign-up and password-reset pages take the identifier for. */
  datatype IdentifierType = EmailType | PhoneType

  /**
   * The effect on `identifier`: the type follows the pattern that matches and
   * stays as it was when neither does.
   */
  function UpdatedType(current: IdentifierType, identifier: string): (r: IdentifierType)
    ensures IsEmail(identifier) ==> r == EmailType
    ensures IsPhone(identifier) ==> r == PhoneType
    ensures !ValidIdentifier(identifier) ==> r == current
  {
    EmailOrPhoneNotBoth(identifier);
    if IsEmail(identifier) then EmailType
    else if IsPhone(identifier) then PhoneType
    else current
  }

  const CountryPrefix := "+91 "
  const MaskedDigits := "****"

  /**
   * Where the verification step says the code went: an address in full, a
   * phone number as its first five and last two characters around a mask.
   */
  function Destination(t: IdentifierType, identifier: string): string {
    match t
    case EmailType => identifier
    case PhoneType => CountryPrefix + Take(identifier, 5) + MaskedDigits + Last(identifier, 2)
  }

  /** A ten-digit number is shown as fifteen characters: prefix, digits 1-5, the mask, digits 9-10. */
  lemma MaskedPhoneShape(phone: string)
    requires IsPhone(phone)
    ensures var shown := Destination(PhoneType, phone);
            |shown| == 15 && shown[..4] == CountryPrefix && shown[4..9] == phone[..5]
            && shown[9..13] == MaskedDigits && shown[13..] == phone[8..]
  {
    var shown := Destination(PhoneType, phone);
    assert shown == CountryPrefix + phone[..5] + MaskedDigits + phone[8..];
  }

  /** Two numbers look the same masked exactly when their first five and last two digits agree. */
  lemma MaskedPhonesAlike(a: string, b: string)
    requires IsPhone(a) && IsPhone(b)
    ensures Destination(PhoneType, a) == Destination(PhoneType, b) <==> a[..5] == b[..5] && a[8..] == b[8..]
  {
    MaskedPhoneShape(a);
    MaskedPhoneShape(b);
    var sa, sb := Destination(PhoneType, a), Destination(PhoneType, b);
    if a[..5] == b[..5] && a[8..] == b[8..] {
      assert sa == CountryPrefix + a[..5] + MaskedDigits + a[8..];
      assert sb == CountryPrefix + b[..5] + MaskedDigits + b[8..];
    }
  }
}
