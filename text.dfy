/**
 * Character classes and string operations used by the storefront's input
 * handling. The source uses regular expressions; here each one becomes a
 * character predicate: `\d` is an ASCII digit, `\w` an ASCII word character and
 * `\s` the JavaScript whitespace set (which `String.prototype.trim` also strips).
 */
module Text {
  import opened Seqs

  /** `\d` */
  predicate IsDigit(c: char) { '0' <= c <= '9' }

  /** `\w`, the characters that `\b` separates from the others. */
  predicate IsWordChar(c: char) {
    'a' <= c <= 'z' || 'A' <= c <= 'Z' || IsDigit(c) || c == '_'
  }

  /** `\s`: ECMAScript white space and line terminators. */
  predicate IsWhitespace(c: char) {
    c == ' ' || c == '\t' || c == '\n' || c == '\r' || c == '\U{000B}' || c == '\U{000C}'
    || c == '\U{00A0}' || c == '\U{1680}' || ('\U{2000}' <= c <= '\U{200A}')
    || c == '\U{2028}' || c == '\U{2029}' || c == '\U{202F}' || c == '\U{205F}'
    || c == '\U{3000}' || c == '\U{FEFF}'
  }

  predicate NotWhitespace(c: char) { !IsWhitespace(c) }

  predicate AllDigits(s: string) { forall i :: 0 <= i < |s| ==> IsDigit(s[i]) }

  /** `s.replace(/\s/g, '')` */
  function RemoveWhitespace(s: string): (r: string)
    ensures forall i :: 0 <= i < |r| ==> !IsWhitespace(r[i])
  {
    Filter(s, NotWhitespace)
  }

  /** `s.replace(/\D/g, '')` */
  function DigitsOnly(s: string): (r: string)
    ensures AllDigits(r)
  {
    Filter(s, IsDigit)
  }

  /** Whitespace-free text is its own whitespace-free form. */
  lemma RemoveWhitespaceOfClean(s: string)
    requires forall i :: 0 <= i < |s| ==> !IsWhitespace(s[i])
    ensures RemoveWhitespace(s) == s
  {
    FilterKeepsAll(s, NotWhitespace);
  }

  /** Drops leading whitespace: what remains is a suffix of `s` that starts with non-whitespace. */
  function TrimStart(s: string): (r: string)
    ensures |r| <= |s| && r == s[|s| - |r|..]
    ensures forall i :: 0 <= i < |s| - |r| ==> IsWhitespace(s[i])
    ensures r == [] || !IsWhitespace(r[0])
  {
    if s != [] && IsWhitespace(s[0]) then TrimStart(s[1..]) else s
  }

  /** Drops trailing whitespace: what remains is a prefix of `s` that ends with non-whitespace. */
  function TrimEnd(s: string): (r: string)
    ensures |r| <= |s| && r == s[..|r|]
    ensures forall i :: |r| <= i < |s| ==> IsWhitespace(s[i])
    ensures r == [] || !IsWhitespace(r[|r| - 1])
  {
    if s != [] && IsWhitespace(s[|s| - 1]) then TrimEnd(s[..|s| - 1]) else s
  }

  /** `s.trim()` */
  function Trim(s: string): string {
    TrimEnd(TrimStart(s))
  }

  /** `s.trim()` is empty exactly when `s` is all whitespace. */
  lemma TrimEmptyIff(s: string)
    ensures Trim(s) == [] <==> forall i :: 0 <= i < |s| ==> IsWhitespace(s[i])
  {
    var t := TrimStart(s);
    if Trim(s) == [] {
      assert t == [];
    } else {
      assert !IsWhitespace(t[0]);
      assert t[0] == s[|s| - |t|];
    }
  }

  /** Text that starts and ends with non-whitespace is its own trim. */
  lemma TrimOfTrimmed(s: string)
    requires s != [] && !IsWhitespace(s[0]) && !IsWhitespace(s[|s| - 1])
    ensures Trim(s) == s
  {
    assert TrimStart(s) == s;
  }

  /** One more character of whitespace at the end makes no difference to the trim. */
  lemma TrimTrailingWhitespace(s: string, c: char)
    requires s != [] && !IsWhitespace(s[0]) && IsWhitespace(c)
    ensures Trim(s + [c]) == Trim(s)
  {
    var t := s + [c];
    assert TrimStart(t) == t;
    assert TrimStart(s) == s;
    assert t[..|t| - 1] == s;
  }

  /** ASCII lower-casing of one character. */
  function LowerChar(c: char): char {
    if 'A' <= c <= 'Z' then (c as int - 'A' as int + 'a' as int) as char else c
  }

  /** `s.toLowerCase()`, on ASCII letters. */
  function ToLower(s: string): (r: string)
    ensures |r| == |s|
    ensures forall i :: 0 <= i < |s| ==> r[i] == LowerChar(s[i])
  {
    if s == [] then [] else [LowerChar(s[0])] + ToLower(s[1..])
  }

  predicate StartsWith(s: string, prefix: string) {
    |prefix| <= |s| && s[..|prefix|] == prefix
  }

  predicate EndsWith(s: string, suffix: string) {
    |suffix| <= |s| && s[|s| - |suffix|..] == suffix
  }

  /**
   * `s.toLowerCase().endsWith(e)`, stated character by character: the last
   * `|e|` characters of `s`, lower-cased, spell `e`.
   */
  predicate EndsWithLower(s: string, e: string) {
    |e| <= |s| && forall i :: 0 <= i < |e| ==> LowerChar(s[|s| - |e| + i]) == e[i]
  }

  /** The character-by-character test is the suffix test on the lower-cased text. */
  lemma EndsWithLowerIsLowerSuffix(s: string, e: string)
    ensures EndsWithLower(s, e) <==> EndsWith(ToLower(s), e)
  {
    var low := ToLower(s);
    if EndsWithLower(s, e) {
      forall i | 0 <= i < |e| ensures low[|s| - |e|..][i] == e[i] {
        assert low[|s| - |e| + i] == LowerChar(s[|s| - |e| + i]);
      }
      assert low[|s| - |e|..] == e;
    }
    if EndsWith(low, e) {
      forall i | 0 <= i < |e| ensures LowerChar(s[|s| - |e| + i]) == e[i] {
        assert low[|s| - |e|..][i] == e[i];
      }
    }
  }

  function Min(a: int, b: int): int { if a <= b then a else b }

  /** `s.slice(0, n)` */
  function Take(s: string, n: nat): (r: string)
    ensures |r| == Min(n, |s|) && r == s[..|r|]
  {
    s[..Min(n, |s|)]
  }

  /** `s.slice(-n)` for a positive `n`: the last `n` characters, or all of a shorter `s`. */
  function Last(s: string, n: nat): (r: string)
    requires n > 0
    ensures |r| == Min(n, |s|) && r == s[|s| - |r|..]
  {
    s[|s| - Min(n, |s|)..]
  }

  /**
   * A digits-only input field: `value = typed.replace(/\D/g, '')`, accepted only
   * when it has at most `limit` characters, otherwise the field keeps `current`.
   * Used for the CVV (limit 4) and for every OTP field (limit 6).
   */
  function DigitInput(current: string, typed: string, limit: nat): (r: string)
    ensures AllDigits(current) && |current| <= limit ==> AllDigits(r) && |r| <= limit
    ensures |DigitsOnly(typed)| <= limit ==> r == DigitsOnly(typed)
    ensures |DigitsOnly(typed)| > limit ==> r == current
  {
    var value := DigitsOnly(typed);
    if |value| <= limit then value else current
  }

  /** Re-typing what the field shows leaves it as it is. */
  lemma DigitInputIdempotent(current: string, typed: string, limit: nat)
    requires AllDigits(current) && |current| <= limit
    ensures var shown := DigitInput(current, typed, limit);
            DigitInput(shown, shown, limit) == shown
  {
    var shown := DigitInput(current, typed, limit);
    FilterKeepsAll(shown, IsDigit);
  }
}
