/** The two input formats the form enforces through the `pattern` attributes of
    its inputs: a phone number `^\+?[1-9]\d{1,14}$` and a code `^\d{6}$`. The
    patterns are written down as regular expressions over a small syntax, and
    each is proved to mean the plain description given by a predicate. */
module InputPatterns {

  /** The regular-expression forms the two patterns use: a character class, an
      optional part, concatenation, and a bounded repetition of a class. */
  datatype Regex =
    | Class(chars: set<char>)
    | Optional(r: Regex)
    | Concat(left: Regex, right: Regex)
    | Repeat(cls: set<char>, min: nat, max: nat)

  /** Whole-string matching (both patterns are anchored by `^` and `$`). A
      repetition takes one character of its class at a time. */
  predicate Matches(re: Regex, s: string)
    decreases |s|, re
  {
    match re
    case Class(chars) => |s| == 1 && s[0] in chars
    case Optional(r) => s == [] || Matches(r, s)
    case Concat(a, b) => exists k :: 0 <= k <= |s| && Matches(a, s[..k]) && Matches(b, s[k..])
    case Repeat(cls, min, max) =>
      (s == [] && min == 0) ||
      (s != [] && max > 0 && s[0] in cls && Matches(Repeat(cls, if min == 0 then 0 else min - 1, max - 1), s[1..]))
  }

  const Digits: set<char> := {'0', '1', '2', '3', '4', '5', '6', '7', '8', '9'}
  const NonZeroDigits: set<char> := Digits - {'0'}

  /** `^\+?[1-9]\d{1,14}$` */
  const PhonePattern: Regex := Concat(Optional(Class({'+'})), Concat(Class(NonZeroDigits), Repeat(Digits, 1, 14)))

  /** `^\d{6}$` */
  const OtpPattern: Regex := Repeat(Digits, 6, 6)

  predicate IsDigit(c: char) {
    '0' <= c <= '9'
  }

  predicate AllDigits(s: string) {
    forall i :: 0 <= i < |s| ==> IsDigit(s[i])
  }

  /** An optional '+', then 2 to 15 digits of which the first is not '0'. */
  predicate IsPhoneNumber(s: string) {
    var digits := if |s| > 0 && s[0] == '+' then s[1..] else s;
    2 <= |digits| <= 15 && digits[0] != '0' && AllDigits(digits)
  }

  /** Exactly six digits. */
  predicate IsOtp(s: string) {
    |s| == 6 && AllDigits(s)
  }

  lemma DigitsAreDigits(c: char)
    ensures c in Digits <==> IsDigit(c)
  {
  }

  /** A repetition of `Digits` matches exactly the all-digit strings whose
      length lies within its bounds. */
  lemma {:induction false} RepeatDigitsMeaning(min: nat, max: nat, s: string)
    ensures Matches(Repeat(Digits, min, max), s) <==> min <= |s| <= max && AllDigits(s)
    decreases |s|
  {
    if s != [] {
      if max > 0 {
        var min' := if min == 0 then 0 else min - 1;
        RepeatDigitsMeaning(min', max - 1, s[1..]);
        DigitsAreDigits(s[0]);
        if IsDigit(s[0]) && AllDigits(s[1..]) {
          assert forall i :: 1 <= i < |s| ==> s[i] == s[1..][i - 1];
        }
      }
    }
  }

  /** `[1-9]\d{1,14}` matches exactly the 2 to 15 digit strings not starting with '0'. */
  lemma SignificandMeaning(t: string)
    ensures Matches(Concat(Class(NonZeroDigits), Repeat(Digits, 1, 14)), t) <==>
      2 <= |t| <= 15 && t[0] != '0' && AllDigits(t)
  {
    var re := Concat(Class(NonZeroDigits), Repeat(Digits, 1, 14));
    if |t| > 0 {
      RepeatDigitsMeaning(1, 14, t[1..]);
      DigitsAreDigits(t[0]);
      if Matches(re, t) {
        var k :| 0 <= k <= |t| && Matches(Class(NonZeroDigits), t[..k]) && Matches(Repeat(Digits, 1, 14), t[k..]);
        assert k == 1;
        assert forall i :: 1 <= i < |t| ==> t[i] == t[1..][i - 1];
      }
      if 2 <= |t| <= 15 && t[0] != '0' && AllDigits(t) {
        assert t[..1] == [t[0]];
        assert Matches(Class(NonZeroDigits), t[..1]) && Matches(Repeat(Digits, 1, 14), t[1..]);
      }
    }
  }

  /** The phone pattern accepts exactly the strings `IsPhoneNumber` describes. */
  lemma PhonePatternMeaning(s: string)
    ensures Matches(PhonePattern, s) <==> IsPhoneNumber(s)
  {
    var rest := Concat(Class(NonZeroDigits), Repeat(Digits, 1, 14));
    if Matches(PhonePattern, s) {
      var k :| 0 <= k <= |s| && Matches(Optional(Class({'+'})), s[..k]) && Matches(rest, s[k..]);
      SignificandMeaning(s[k..]);
      if k == 0 {
        assert s[0..] == s;
      } else {
        assert Matches(Class({'+'}), s[..k]);
        assert s[..k][0] == s[0];
      }
    }
    if IsPhoneNumber(s) {
      if |s| > 0 && s[0] == '+' {
        SignificandMeaning(s[1..]);
        assert s[..1] == ['+'];
        assert Matches(Optional(Class({'+'})), s[..1]) && Matches(rest, s[1..]);
      } else {
        SignificandMeaning(s);
        assert s[..0] == [] && s[0..] == s;
        assert Matches(Optional(Class({'+'})), s[..0]) && Matches(rest, s[0..]);
      }
    }
  }

  /** The code pattern accepts exactly the strings of six digits. */
  lemma OtpPatternMeaning(s: string)
    ensures Matches(OtpPattern, s) <==> IsOtp(s)
  {
    RepeatDigitsMeaning(6, 6, s);
  }

  /** An accepted phone number is never empty (so the `required` attribute adds
      nothing), holds at most one '+', and has 2 to 16 characters. */
  lemma PhoneNumberShape(s: string)
    requires Matches(PhonePattern, s)
    ensures 2 <= |s| <= 16
    ensures forall i :: 0 < i < |s| ==> IsDigit(s[i])
  {
    PhonePatternMeaning(s);
    if s[0] == '+' {
      assert forall i :: 0 < i < |s| ==> s[i] == s[1..][i - 1];
    }
  }
}
