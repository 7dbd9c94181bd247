/**
  Decimal text of integers, as produced by the string conversion of an `int`
  that the knob labels use: an optional minus sign followed by the digits
  without leading zeros. ParseInt is its inverse.
 */
module DecimalText {
  import opened Options

  predicate IsDigit(c: char) {
    '0' <= c <= '9'
  }

  predicate AllDigits(s: string) {
    forall i :: 0 <= i < |s| ==> IsDigit(s[i])
  }

  function DigitValue(c: char): nat
    requires IsDigit(c)
  {
    c as int - '0' as int
  }

  function DigitChar(d: nat): (c: char)
    requires d < 10
    ensures IsDigit(c) && DigitValue(c) == d
  {
    ('0' as int + d) as char
  }

  /** The value of a string of decimal digits, most significant first. */
  function DigitsValue(s: string): nat
    requires AllDigits(s)
  {
    if s == [] then 0 else 10 * DigitsValue(s[..|s| - 1]) + DigitValue(s[|s| - 1])
  }

  /** A digit string in canonical form: non-empty, and no leading zero unless
      it is the single digit "0". */
  predicate IsCanonicalDigits(s: string) {
    |s| >= 1 && AllDigits(s) && (s[0] == '0' ==> |s| == 1)
  }

  /** Canonical integer text: canonical digits, or a minus sign followed by
      canonical digits that do not start with zero (so never "-0"). */
  predicate IsCanonicalInt(s: string) {
    IsCanonicalDigits(s) || (|s| >= 2 && s[0] == '-' && IsCanonicalDigits(s[1..]) && s[1] != '0')
  }

  /** The canonical digits of a natural number. */
  function NatToDigits(n: nat): (r: string)
    ensures IsCanonicalDigits(r)
    ensures DigitsValue(r) == n
    ensures r[0] == '0' ==> n == 0
    decreases n
  {
    if n < 10 then [DigitChar(n)]
    else
      var prefix := NatToDigits(n / 10);
      assert (prefix + [DigitChar(n % 10)])[..|prefix|] == prefix;
      prefix + [DigitChar(n % 10)]
  }

  /** Reads an optional minus sign followed by at least one digit. */
  function ParseInt(s: string): Option<int> {
    if |s| >= 2 && s[0] == '-' && AllDigits(s[1..]) then Some(0 - DigitsValue(s[1..]))
    else if |s| >= 1 && AllDigits(s) then Some(DigitsValue(s))
    else None
  }

  /** The decimal text of an integer: "-" and the digits of its magnitude when it
      is negative, the digits alone otherwise. */
  function IntToString(n: int): (r: string)
    ensures ParseInt(r) == Some(n)
    ensures IsCanonicalInt(r)
    ensures n < 0 <==> (|r| >= 1 && r[0] == '-')
    ensures n < 0 ==> IsCanonicalDigits(r[1..])
    ensures n >= 0 ==> IsCanonicalDigits(r)
  {
    if n < 0 then
      var digits := NatToDigits(-n);
      assert ("-" + digits)[1..] == digits;
      "-" + digits
    else NatToDigits(n)
  }

  /** A canonical digit string with a non-zero lead has a positive value. */
  lemma {:induction false} LeadingDigitPositive(s: string)
    requires |s| >= 1 && AllDigits(s) && s[0] != '0'
    ensures DigitsValue(s) >= 1
    decreases |s|
  {
    if |s| > 1 {
      var prefix := s[..|s| - 1];
      assert prefix[0] == s[0];
      LeadingDigitPositive(prefix);
    }
  }

  /** Canonical digit strings are exactly the images of NatToDigits. */
  lemma {:induction false} CanonicalDigitsRoundTrip(s: string)
    requires IsCanonicalDigits(s)
    ensures NatToDigits(DigitsValue(s)) == s
    decreases |s|
  {
    if |s| > 1 {
      var prefix := s[..|s| - 1];
      assert prefix[0] == s[0];
      LeadingDigitPositive(prefix);
      CanonicalDigitsRoundTrip(prefix);
      var n := DigitsValue(s);
      assert n / 10 == DigitsValue(prefix) && n % 10 == DigitValue(s[|s| - 1]);
      assert s == prefix + [s[|s| - 1]];
    }
  }

  /** The text of an integer is the only canonical spelling of it: whatever
      canonical text parses to n is IntToString(n). */
  lemma CanonicalIntRoundTrip(s: string, n: int)
    requires IsCanonicalInt(s)
    requires ParseInt(s) == Some(n)
    ensures IntToString(n) == s
  {
    if s[0] == '-' {
      var digits := s[1..];
      LeadingDigitPositive(digits);
      CanonicalDigitsRoundTrip(digits);
      assert n == 0 - DigitsValue(digits) && n < 0;
      assert IntToString(n) == "-" + NatToDigits(DigitsValue(digits));
      assert s == "-" + digits;
    } else {
      assert !IsDigit('-');
      assert n == DigitsValue(s);
      CanonicalDigitsRoundTrip(s);
    }
  }

  /** Different integers get different texts. */
  lemma IntToStringInjective(a: int, b: int)
    requires IntToString(a) == IntToString(b)
    ensures a == b
  {
  }
}
