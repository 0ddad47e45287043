/**
 * The pure part of the cart page's checkout panel (src/components/CartItems.tsx):
 * the card-number and expiry formatters, card-network detection, card
 * validation against the current year and month, the cash-on-delivery address
 * checks, and the decimal rendering of an amount in a status message.
 */
module PaymentChecks {
  import opened Wrappers
  import opened Seqs
  import opened Text

  // ---------------------------------------------------------------- card number

  /**
   * `.replace(/(.{4})/g, '$1 ')`: a space after every complete group of four.
   * It is applied to whitespace-free text, where `.` matches every character
   * (every line terminator is whitespace).
   */
  function SpaceEveryFour(s: string): string
    decreases |s|
  {
    if |s| < 4 then s else s[..4] + " " + SpaceEveryFour(s[4..])
  }

  /**
   * The groups of four of `d` joined by single spaces, the last group holding
   * the one to four characters left over.
   */
  function JoinInFours(d: string): (r: string)
    ensures d == [] <==> r == []
    ensures d != [] ==> |r| == |d| + (|d| - 1) / 4
    ensures d != [] ==> r[0] == d[0] && r[|r| - 1] == d[|d| - 1]
    decreases |d|
  {
    if |d| <= 4 then d else d[..4] + " " + JoinInFours(d[4..])
  }

  /** The last group of four is complete: `|d|` is a positive multiple of four. */
  predicate EndsInFullGroup(d: string)
    decreases |d|
  {
    |d| == 4 || (|d| > 4 && EndsInFullGroup(d[4..]))
  }

  /** The regex replacement is the joined groups, plus one trailing space when the last group is complete. */
  lemma {:induction false} SpaceEveryFourIsJoin(d: string)
    ensures !EndsInFullGroup(d) ==> SpaceEveryFour(d) == JoinInFours(d)
    ensures EndsInFullGroup(d) ==> SpaceEveryFour(d) == JoinInFours(d) + " "
    decreases |d|
  {
    if |d| == 4 {
      assert SpaceEveryFour(d[4..]) == [];
    } else if |d| > 4 {
      var rest := d[4..];
      SpaceEveryFourIsJoin(rest);
      var head := d[..4] + " ";
      assert SpaceEveryFour(d) == head + SpaceEveryFour(rest);
      assert JoinInFours(d) == head + JoinInFours(rest);
      if EndsInFullGroup(d) {
        assert head + (JoinInFours(rest) + " ") == (head + JoinInFours(rest)) + " ";
      }
    }
  }

  /** `trim` of a grouping removes at most its trailing space: the joined groups remain. */
  lemma TrimmedGrouping(d: string)
    requires forall i :: 0 <= i < |d| ==> !IsWhitespace(d[i])
    ensures Trim(SpaceEveryFour(d)) == JoinInFours(d)
  {
    if d == [] {
      assert SpaceEveryFour(d) == [];
    } else {
      var j := JoinInFours(d);
      assert Trim(j) == j && Trim(j + [' ']) == j by {
        JoinEndsSolid(d);
        TrimOfTrimmed(j);
        TrimTrailingWhitespace(j, ' ');
      }
      SpaceEveryFourIsJoin(d);
      assert SpaceEveryFour(d) == j || SpaceEveryFour(d) == j + [' '];
    }
  }

  /** Grouping whitespace-free text begins and ends with one of its own characters. */
  lemma JoinEndsSolid(d: string)
    requires d != []
    requires forall i :: 0 <= i < |d| ==> !IsWhitespace(d[i])
    ensures !IsWhitespace(JoinInFours(d)[0])
    ensures !IsWhitespace(JoinInFours(d)[|JoinInFours(d)| - 1])
  {
    var j := JoinInFours(d);
    assert j[0] == d[0] && j[|j| - 1] == d[|d| - 1];
  }

  /** Removing whitespace from text with one more space at the end. */
  lemma RemoveWhitespaceAroundSpace(a: string, b: string)
    ensures RemoveWhitespace(a + " " + b) == RemoveWhitespace(a) + RemoveWhitespace(b)
  {
    FilterConcat(a + " ", b, NotWhitespace);
    FilterConcat(a, " ", NotWhitespace);
    assert Filter(" ", NotWhitespace) == [] by {
      assert " "[1..] == [];
    }
  }

  /** Removing the spaces between the groups gives back whitespace-free `d`. */
  lemma {:induction false} JoinInFoursUngroups(d: string)
    requires forall i :: 0 <= i < |d| ==> !IsWhitespace(d[i])
    ensures RemoveWhitespace(JoinInFours(d)) == d
    decreases |d|
  {
    if |d| <= 4 {
      RemoveWhitespaceOfClean(d);
    } else {
      JoinInFoursUngroups(d[4..]);
      RemoveWhitespaceAroundSpace(d[..4], JoinInFours(d[4..]));
      RemoveWhitespaceOfClean(d[..4]);
      assert d[..4] + d[4..] == d;
    }
  }

  /** `formatCardNumber`: strip whitespace, group in fours, trim, keep at most 19 characters. */
  function FormatCardNumber(value: string): (r: string)
    ensures |r| <= 19
  {
    Take(Trim(SpaceEveryFour(RemoveWhitespace(value))), 19)
  }

  /** The formatted number depends only on the non-whitespace characters. */
  lemma FormatIgnoresWhitespace(a: string, b: string)
    requires RemoveWhitespace(a) == RemoveWhitespace(b)
    ensures FormatCardNumber(a) == FormatCardNumber(b)
  {
  }

  /**
   * For input with at most 16 non-whitespace characters (the field's guard),
   * the formatted text is those characters joined in groups of four, so
   * removing its spaces gives them back, and formatting it again changes
   * nothing.
   */
  lemma FormatCardNumberShape(value: string)
    requires |RemoveWhitespace(value)| <= 16
    ensures FormatCardNumber(value) == JoinInFours(RemoveWhitespace(value))
    ensures RemoveWhitespace(FormatCardNumber(value)) == RemoveWhitespace(value)
    ensures FormatCardNumber(FormatCardNumber(value)) == FormatCardNumber(value)
  {
    var d := RemoveWhitespace(value);
    TrimmedGrouping(d);
    var j := JoinInFours(d);
    assert |j| <= 19;
    assert FormatCardNumber(value) == j;
    JoinInFoursUngroups(d);
    FormatIgnoresWhitespace(j, value);
  }

  /** What the card-number field can hold: digit groups of four separated by single spaces, the last of one to four digits. */
  predicate GroupedCardNumber(s: string)
    decreases |s|
  {
    if |s| <= 4 then AllDigits(s)
    else |s| >= 6 && AllDigits(s[..4]) && s[4] == ' ' && GroupedCardNumber(s[5..])
  }

  /** Joining digits in fours gives what the field can hold. */
  lemma {:induction false} JoinInFoursGrouped(d: string)
    requires AllDigits(d)
    ensures GroupedCardNumber(JoinInFours(d))
    decreases |d|
  {
    if |d| > 4 {
      var r := JoinInFours(d);
      JoinInFoursGrouped(d[4..]);
      assert r[..4] == d[..4];
      assert r[5..] == JoinInFours(d[4..]);
    }
  }

  predicate DigitOrWhitespace(c: char) { IsDigit(c) || IsWhitespace(c) }

  /** Of text holding only digits and whitespace, what remains without the whitespace is digits. */
  lemma DigitsAfterCleaning(typed: string)
    ensures AllDigits(RemoveWhitespace(Filter(typed, DigitOrWhitespace)))
  {
    var value := Filter(typed, DigitOrWhitespace);
    var d := RemoveWhitespace(value);
    FilterMembers(value, NotWhitespace);
    forall i | 0 <= i < |d| ensures IsDigit(d[i]) {
      assert d[i] in value;
    }
  }

  /**
   * The card-number field's change handler: everything but digits and
   * whitespace is dropped, and the edit is taken, formatted, only when it has
   * at most 16 non-whitespace characters; otherwise the field keeps `current`.
   */
  function CardNumberInput(current: string, typed: string): (r: string)
    ensures |RemoveWhitespace(Filter(typed, DigitOrWhitespace))| <= 16 ==>
              r == FormatCardNumber(Filter(typed, DigitOrWhitespace))
    ensures |RemoveWhitespace(Filter(typed, DigitOrWhitespace))| > 16 ==> r == current
    ensures GroupedCardNumber(current) ==> GroupedCardNumber(r)
  {
    var value := Filter(typed, DigitOrWhitespace);
    if |RemoveWhitespace(value)| <= 16 then
      DigitsAfterCleaning(typed);
      FormatCardNumberShape(value);
      JoinInFoursGrouped(RemoveWhitespace(value));
      FormatCardNumber(value)
    else current
  }

  // ---------------------------------------------------------------- expiry

  /** `.replace(/^(\d{2})(\d)/, '$1/$2')` on digits-only text. */
  function InsertSlash(d: string): string {
    if |d| >= 3 then d[..2] + "/" + d[2..] else d
  }

  /** `formatExpiryDate`: keep the digits, put `/` after two when a third follows, keep at most five characters. */
  function FormatExpiryDate(value: string): (r: string)
    ensures |r| <= 5
  {
    Take(InsertSlash(DigitsOnly(value)), 5)
  }

  /** The texts the expiry field can hold: up to two digits, or `MM/Y` or `MM/YY`. */
  predicate IsFormattedExpiry(e: string) {
    (|e| <= 2 && AllDigits(e))
    || (4 <= |e| <= 5 && e[2] == '/' && AllDigits(e[..2]) && AllDigits(e[3..]))
  }

  /**
   * The formatted expiry keeps exactly the first four digits of the input, has
   * the field's shape, and is left as it is by formatting it again.
   */
  lemma FormatExpiryDateShape(value: string)
    ensures var r := FormatExpiryDate(value);
            IsFormattedExpiry(r)
            && DigitsOnly(r) == Take(DigitsOnly(value), 4)
            && FormatExpiryDate(r) == r
  {
    var d := DigitsOnly(value);
    var r := FormatExpiryDate(value);
    if |d| >= 3 {
      var k := Min(4, |d|);
      var head, tail := d[..2], d[2..k];
      assert r == head + "/" + tail;
      assert AllDigits(head) && AllDigits(tail);
      assert r[..2] == head && r[3..] == tail;
      DigitsOfSlashed(head, tail);
      assert head + tail == d[..k];
      assert DigitsOnly(r) == Take(d, 4);
      var d2 := d[..k];
      assert InsertSlash(d2) == head + "/" + tail;
    } else {
      FilterKeepsAll(d, IsDigit);
      assert r == d;
    }
  }

  lemma DigitsOfSlashed(head: string, tail: string)
    requires AllDigits(head) && AllDigits(tail)
    ensures DigitsOnly(head + "/" + tail) == head + tail
  {
    var h := head + "/";
    FilterConcat(h, tail, IsDigit);
    assert Filter(h + tail, IsDigit) == Filter(h, IsDigit) + Filter(tail, IsDigit);
    FilterConcat(head, "/", IsDigit);
    assert Filter("/", IsDigit) == [] by {
      assert !IsDigit('/');
      assert "/"[1..] == [];
    }
    assert Filter(h, IsDigit) == Filter(head, IsDigit);
    FilterKeepsAll(head, IsDigit);
    FilterKeepsAll(tail, IsDigit);
  }

  // ---------------------------------------------------------------- network

  const Visa := "Visa"
  const Mastercard := "Mastercard"
  const Amex := "American Express"
  const Discover := "Discover"
  const UnknownNetwork := "Unknown"

  /**
   * The card-network effect, on the number without whitespace, in priority
   * order: `4`; `51`-`55`; `34` or `37`; `6011` or `65`; else `Unknown` past six
   * characters and empty before.
   */
  function DetectNetwork(number: string): (r: string)
    ensures r in {Visa, Mastercard, Amex, Discover, UnknownNetwork, ""}
  {
    NetworkOf(RemoveWhitespace(number))
  }

  /** The network of a whitespace-free number. */
  function NetworkOf(c: string): string {
    if StartsWith(c, "4") then Visa
    else if |c| >= 2 && c[0] == '5' && '1' <= c[1] <= '5' then Mastercard
    else if |c| >= 2 && c[0] == '3' && (c[1] == '4' || c[1] == '7') then Amex
    else if StartsWith(c, "6011") || StartsWith(c, "65") then Discover
    else if |c| > 6 then UnknownNetwork
    else ""
  }

  /**
   * Each network exactly for its prefix of the cleaned number; the prefixes
   * exclude one another, and `Unknown` or empty only when none matches.
   */
  lemma NetworkRules(number: string)
    ensures var c := RemoveWhitespace(number);
            var named := (|c| >= 1 && c[0] == '4')
                         || (|c| >= 2 && c[0] == '5' && '1' <= c[1] <= '5')
                         || (|c| >= 2 && c[0] == '3' && (c[1] == '4' || c[1] == '7'))
                         || StartsWith(c, "6011") || StartsWith(c, "65");
            (DetectNetwork(number) == Visa <==> |c| >= 1 && c[0] == '4')
            && (DetectNetwork(number) == Mastercard <==> |c| >= 2 && c[0] == '5' && '1' <= c[1] <= '5')
            && (DetectNetwork(number) == Amex <==> |c| >= 2 && c[0] == '3' && (c[1] == '4' || c[1] == '7'))
            && (DetectNetwork(number) == Discover <==> StartsWith(c, "6011") || StartsWith(c, "65"))
            && (DetectNetwork(number) == UnknownNetwork <==> !named && |c| > 6)
            && (DetectNetwork(number) == "" <==> !named && |c| <= 6)
  {
  }

  /** A named network is decided by a prefix, so more characters after it keep it. */
  lemma NetworkOfExtended(c: string, e: string)
    requires NetworkOf(c) in {Visa, Mastercard, Amex, Discover}
    ensures NetworkOf(c + e) == NetworkOf(c)
  {
    var x := c + e;
    assert x[0] == c[0];
    if |c| >= 2 { assert x[1] == c[1]; }
    if StartsWith(c, "6011") { assert x[..4] == c[..4]; }
    if StartsWith(c, "65") { assert x[..2] == c[..2]; }
  }

  /** Spacing never changes the network, so the formatted number shows the network of what was typed. */
  lemma DetectNetworkOfFormatted(value: string)
    requires |RemoveWhitespace(value)| <= 16
    ensures DetectNetwork(FormatCardNumber(value)) == DetectNetwork(value)
  {
    FormatCardNumberShape(value);
    NetworkIgnoresWhitespace(FormatCardNumber(value), value);
  }

  /** The network depends only on the non-whitespace characters. */
  lemma NetworkIgnoresWhitespace(a: string, b: string)
    requires RemoveWhitespace(a) == RemoveWhitespace(b)
    ensures DetectNetwork(a) == DetectNetwork(b)
  {
  }

  /** Once a prefix names a network, typing more characters keeps that network. */
  lemma DetectNetworkStable(a: string, b: string)
    requires DetectNetwork(a) in {Visa, Mastercard, Amex, Discover}
    ensures DetectNetwork(a + b) == DetectNetwork(a)
  {
    FilterConcat(a, b, NotWhitespace);
    NetworkOfExtended(RemoveWhitespace(a), RemoveWhitespace(b));
  }

  // ---------------------------------------------------------------- card validation

  const CardNumberMessage := "Please enter a valid card number"
  const ExpiryMessage := "Please enter a valid expiry date (MM/YY)"
  const ExpiredMessage := "Your card has expired"
  const MonthMessage := "Invalid expiry month"
  const AmexCvvMessage := "American Express cards require a 4-digit CVV"
  const CvvMessage := "Please enter a valid 3-digit CVV"
  const NameMessage := "Please enter the cardholder name"

  function DigitValue(c: char): int { c as int - '0' as int }

  /** `parseInt` of two decimal digits. */
  function TwoDigits(a: char, b: char): int { DigitValue(a) * 10 + DigitValue(b) }

  /** The month `MM` of a complete `MM/YY` expiry. */
  function ExpiryMonth(e: string): int
    requires |e| == 5
  {
    TwoDigits(e[0], e[1])
  }

  /** `parseInt('20' + YY)` of a complete `MM/YY` expiry. */
  function ExpiryYear(e: string): int
    requires |e| == 5
  {
    2000 + TwoDigits(e[3], e[4])
  }

  /** (year, month) lies strictly before (nowYear, nowMonth). */
  predicate Before(year: int, month: int, nowYear: int, nowMonth: int) {
    year < nowYear || (year == nowYear && month < nowMonth)
  }

  /** The CVV length the network demands. */
  function CvvLength(network: string): nat {
    if network == Amex then 4 else 3
  }

  /** Every check of a card passes. */
  predicate CardAcceptable(number: string, expiry: string, cvv: string, name: string,
                           network: string, nowYear: int, nowMonth: int)
  {
    var clean := RemoveWhitespace(number);
    15 <= |clean| <= 16
    && |expiry| == 5
    && !Before(ExpiryYear(expiry), ExpiryMonth(expiry), nowYear, nowMonth)
    && 1 <= ExpiryMonth(expiry) <= 12
    && |cvv| == CvvLength(network)
    && |name| >= 3
  }

  /**
   * `validateCardDetails` as a value: the message of the first failing check,
   * or `None` when the card is acceptable. `network` is the detected network
   * of the number; `expiry` is what the expiry field can hold.
   */
  function CardError(number: string, expiry: string, cvv: string, name: string,
                     network: string, nowYear: int, nowMonth: int): (r: Option<string>)
    requires IsFormattedExpiry(expiry)
    ensures r.None? <==> CardAcceptable(number, expiry, cvv, name, network, nowYear, nowMonth)
    ensures r == Some(CardNumberMessage) <==> !(15 <= |RemoveWhitespace(number)| <= 16)
    ensures r == Some(ExpiryMessage) <==> 15 <= |RemoveWhitespace(number)| <= 16 && |expiry| < 5
    ensures r.Some? ==> r.value in {CardNumberMessage, ExpiryMessage, ExpiredMessage, MonthMessage,
                                    AmexCvvMessage, CvvMessage, NameMessage}
  {
    var clean := RemoveWhitespace(number);
    if |clean| < 15 || |clean| > 16 then Some(CardNumberMessage)
    else if |expiry| < 5 then Some(ExpiryMessage)
    else if Before(ExpiryYear(expiry), ExpiryMonth(expiry), nowYear, nowMonth) then Some(ExpiredMessage)
    else if ExpiryMonth(expiry) < 1 || ExpiryMonth(expiry) > 12 then Some(MonthMessage)
    else if network == Amex && |cvv| != 4 then Some(AmexCvvMessage)
    else if network != Amex && |cvv| != 3 then Some(CvvMessage)
    else if |name| < 3 then Some(NameMessage)
    else None
  }

  /**
   * Each card message belongs to exactly one check, and a check's message is
   * the answer exactly when every check before it passes and it fails, in the
   * order of `validateCardDetails`: number, completeness, expiry, month, CVV
   * for the network, name.
   */
  lemma CardChecksInOrder(number: string, expiry: string, cvv: string, name: string,
                          network: string, nowYear: int, nowMonth: int)
    requires IsFormattedExpiry(expiry)
    ensures var r := CardError(number, expiry, cvv, name, network, nowYear, nowMonth);
            var numberOk := 15 <= |RemoveWhitespace(number)| <= 16;
            var complete := |expiry| == 5;
            var current := complete && !Before(ExpiryYear(expiry), ExpiryMonth(expiry), nowYear, nowMonth);
            var monthOk := complete && 1 <= ExpiryMonth(expiry) <= 12;
            (r == Some(ExpiredMessage) <==>
               numberOk && complete && Before(ExpiryYear(expiry), ExpiryMonth(expiry), nowYear, nowMonth))
            && (r == Some(MonthMessage) <==> numberOk && current && !monthOk)
            && (r == Some(AmexCvvMessage) <==> numberOk && current && monthOk && network == Amex && |cvv| != 4)
            && (r == Some(CvvMessage) <==> numberOk && current && monthOk && network != Amex && |cvv| != 3)
            && (r == Some(NameMessage) <==>
                  numberOk && current && monthOk && |cvv| == CvvLength(network) && |name| < 3)
  {
  }

  /**
   * The expiry check compares months: a card whose expiry is the current
   * month is accepted, one whose expiry is the month before is refused as
   * expired, whatever else it carries.
   */
  lemma ExpiryMonthBoundary(number: string, cvv: string, name: string, network: string,
                            nowYear: int, nowMonth: int)
    requires 15 <= |RemoveWhitespace(number)| <= 16
    requires |cvv| == CvvLength(network) && |name| >= 3
    requires 2000 <= nowYear <= 2099 && 1 <= nowMonth <= 12
    ensures CardError(number, ExpiryText(nowMonth, nowYear - 2000), cvv, name, network, nowYear, nowMonth) == None
    ensures nowMonth > 1 ==>
              CardError(number, ExpiryText(nowMonth - 1, nowYear - 2000), cvv, name, network, nowYear, nowMonth)
              == Some(ExpiredMessage)
  {
  }

  /** `MM/YY` for a month and a two-digit year. */
  function ExpiryText(month: int, yy: int): (e: string)
    requires 0 <= month <= 99 && 0 <= yy <= 99
    ensures |e| == 5 && IsFormattedExpiry(e) && ExpiryMonth(e) == month && ExpiryYear(e) == 2000 + yy
  {
    [DigitChar(month / 10), DigitChar(month % 10), '/', DigitChar(yy / 10), DigitChar(yy % 10)]
  }

  function DigitChar(d: int): (c: char)
    requires 0 <= d <= 9
    ensures IsDigit(c) && DigitValue(c) == d
  {
    (d + '0' as int) as char
  }

  // ---------------------------------------------------------------- cash on delivery

  const AddressMissingMessage := "Please enter your delivery address"
  const AddressShortMessage := "Please enter a complete delivery address"
  const PincodeMessage := "Please include a valid 6-digit pincode in your address"

  /** `/\b\d{6}\b/` matches at `i`: six digits with no word character on either side. */
  predicate PincodeAt(s: string, i: int) {
    0 <= i && i + 6 <= |s| && AllDigits(s[i..i + 6])
    && (i == 0 || !IsWordChar(s[i - 1]))
    && (i + 6 == |s| || !IsWordChar(s[i + 6]))
  }

  /** The leftmost match at or after `from`. */
  function FindPincode(s: string, from: nat): (r: Option<nat>)
    ensures r.Some? ==> from <= r.value && PincodeAt(s, r.value)
                        && forall j :: from <= j < r.value ==> !PincodeAt(s, j)
    ensures r.None? ==> forall j :: from <= j ==> !PincodeAt(s, j)
    decreases |s| - from
  {
    if from + 6 > |s| then None
    else if PincodeAt(s, from) then Some(from)
    else FindPincode(s, from + 1)
  }

  /** `deliveryAddress.match(/\b\d{6}\b/)`: the first word-bounded six-digit run. */
  function Pincode(address: string): (r: Option<string>)
    ensures r.None? <==> forall j :: 0 <= j ==> !PincodeAt(address, j)
    ensures r.Some? ==> |r.value| == 6 && AllDigits(r.value)
  {
    match FindPincode(address, 0)
    case None => None
    case Some(i) => Some(address[i..i + 6])
  }

  /** The address checks of `processCODPayment`, in order: the first failing one's message, or `None`. */
  function CodError(address: string): (r: Option<string>)
    ensures r.None? <==> Trim(address) != [] && |address| >= 10 && Pincode(address).Some?
    ensures r == Some(AddressMissingMessage) <==> forall i :: 0 <= i < |address| ==> IsWhitespace(address[i])
  {
    TrimEmptyIff(address);
    if Trim(address) == [] then Some(AddressMissingMessage)
    else if |address| < 10 then Some(AddressShortMessage)
    else if Pincode(address).None? then Some(PincodeMessage)
    else None
  }

  /**
   * The short-address and pincode messages answer exactly when the checks
   * before them pass and theirs fails: presence, then length, then pincode.
   */
  lemma CodChecksInOrder(address: string)
    ensures CodError(address) == Some(AddressShortMessage) <==> Trim(address) != [] && |address| < 10
    ensures CodError(address) == Some(PincodeMessage) <==>
              Trim(address) != [] && |address| >= 10 && Pincode(address).None?
  {
  }

  /** A street address without a pincode is refused with the pincode message. */
  lemma AddressWithoutPincodeRejected()
    ensures CodError("12 Main Street") == Some(PincodeMessage)
  {
    var a := "12 Main Street";
    forall j | 0 <= j ensures !PincodeAt(a, j) {
      if j + 6 <= |a| {
        assert a[j..j + 6][2] == a[j + 2];
      }
    }
    assert !IsWhitespace(a[0]);
    TrimEmptyIff(a);
  }

  /** The same address ending in a six-digit code passes, and the code is the one found. */
  lemma AddressWithPincodeAccepted()
    ensures CodError("12 Main Street " + "400001") == None
    ensures Pincode("12 Main Street " + "400001") == Some("400001")
  {
    var street, code := "12 Main Street ", "400001";
    var b := street + code;
    SamplePincodeFound();
    assert b[15..21] == code;
    LeftmostPincodeAccepted(b, 15);
  }

  /** An address of ten or more characters that starts with a letter or digit and holds a pincode
      is accepted, and the pincode reported is the leftmost one. */
  lemma LeftmostPincodeAccepted(address: string, k: nat)
    requires |address| >= 10 && !IsWhitespace(address[0])
    requires FindPincode(address, 0) == Some(k)
    ensures CodError(address) == None
    ensures Pincode(address) == Some(address[k..k + 6])
  {
    TrimEmptyIff(address);
  }

  /** The search over the sample address stops at its six-digit run. */
  lemma SamplePincodeFound()
    ensures FindPincode("12 Main Street " + "400001", 0) == Some(15)
  {
    var b := "12 Main Street " + "400001";
    assert PincodeAt(b, 15) by {
      assert b[15..21] == "400001";
    }
    forall j | 0 <= j < 15 ensures !PincodeAt(b, j) {
      if j <= 9 {
        assert !IsDigit(b[j..j + 6][2]);
      } else {
        assert !IsDigit(b[j..j + 6][14 - j]);
      }
    }
    FindPincodeLeftmost(b, 0, 15);
  }

  /** The search returns the leftmost match: any match with none before it is the one found. */
  lemma {:induction false} FindPincodeLeftmost(s: string, from: nat, k: nat)
    requires from <= k && PincodeAt(s, k)
    requires forall j :: from <= j < k ==> !PincodeAt(s, j)
    ensures FindPincode(s, from) == Some(k)
    decreases k - from
  {
    if from < k {
      FindPincodeLeftmost(s, from + 1, k);
    }
  }

  /** A seven-digit run is no pincode: each of its six-digit windows touches another digit. */
  lemma SevenDigitRunRejected(pre: string, run: string, post: string)
    requires |run| == 7 && AllDigits(run)
    requires forall i :: 0 <= i < |pre| ==> !IsDigit(pre[i])
    requires forall i :: 0 <= i < |post| ==> !IsDigit(post[i])
    ensures Pincode(pre + run + post).None?
  {
    var s := pre + run + post;
    var n := |pre|;
    forall j | 0 <= j ensures !PincodeAt(s, j) {
      if j + 6 <= |s| {
        if j < n {
          assert s[j..j + 6][0] == pre[j];
        } else if j == n {
          assert s[n + 6] == run[6];
        } else if j == n + 1 {
          assert s[n] == run[0];
        } else if j <= n + 7 {
          assert s[n + 7] == post[0];
          assert s[j..j + 6][n + 7 - j] == s[n + 7];
        } else {
          assert s[j..j + 6][0] == post[j - n - 7];
        }
      }
    }
  }

  // ---------------------------------------------------------------- amounts in messages

  /** The decimal digits of `n`, as a template literal shows it. */
  function NatDigits(n: nat): (r: string)
    ensures |r| >= 1 && AllDigits(r)
    ensures |r| > 1 ==> r[0] != '0'
  {
    if n < 10 then [DigitChar(n)] else NatDigits(n / 10) + [DigitChar(n % 10)]
  }

  /** The value of a string of decimal digits. */
  function DigitsValue(s: string): int
    requires AllDigits(s)
  {
    if s == [] then 0 else 10 * DigitsValue(s[..|s| - 1]) + DigitValue(s[|s| - 1])
  }

  /** Reading the digits back gives the number. */
  lemma {:induction false} NatDigitsRoundTrip(n: nat)
    ensures DigitsValue(NatDigits(n)) == n
  {
    if n >= 10 {
      NatDigitsRoundTrip(n / 10);
      var r := NatDigits(n);
      assert r[..|r| - 1] == NatDigits(n / 10);
    }
  }

  /** `${n}` for an integer. */
  function Decimal(n: int): (r: string)
    ensures n >= 0 ==> AllDigits(r) && DigitsValue(r) == n
    ensures n < 0 ==> |r| >= 2 && r[0] == '-' && AllDigits(r[1..]) && DigitsValue(r[1..]) == -n
  {
    if n >= 0 then
      NatDigitsRoundTrip(n);
      NatDigits(n)
    else
      NatDigitsRoundTrip(-n);
      assert ("-" + NatDigits(-n))[1..] == NatDigits(-n);
      "-" + NatDigits(-n)
  }
}
