/** Decimal numerals, as `std::stringstream` writes an unsigned integer: the
    shortest string of ASCII digits, most significant first. */
module Decimal {

  predicate IsDigit(c: char) {
    '0' <= c <= '9'
  }

  predicate IsDigits(s: string) {
    forall k | 0 <= k < |s| :: IsDigit(s[k])
  }

  /** A numeral as a stream prints it: at least one digit, and no leading zero
      unless the numeral is "0" itself. */
  predicate IsCanonical(s: string) {
    |s| >= 1 && IsDigits(s) && (s[0] == '0' ==> |s| == 1)
  }

  function DigitChar(d: nat): (c: char)
    requires d < 10
    ensures IsDigit(c) && DigitValue(c) == d
  {
    (48 + d) as char
  }

  function DigitValue(c: char): (d: nat)
    requires IsDigit(c)
    ensures d < 10
  {
    c as int - 48
  }

  /** The number a string of digits denotes, most significant digit first. */
  function DigitsValue(s: string): nat
    requires IsDigits(s)
  {
    if |s| == 0 then 0 else 10 * DigitsValue(s[..|s| - 1]) + DigitValue(s[|s| - 1])
  }

  /** The numeral of `n`: canonical, and denoting `n`. */
  function DecimalString(n: nat): (s: string)
    ensures IsCanonical(s)
    ensures DigitsValue(s) == n
    decreases n
  {
    if n < 10 then [DigitChar(n)]
    else
      var prefix := DecimalString(n / 10);
      var s := prefix + [DigitChar(n % 10)];
      assert s[..|s| - 1] == prefix;
      s
  }

  /** A canonical numeral whose first digit is not zero denotes a positive number. */
  lemma {:induction false} CanonicalPositive(s: string)
    requires IsCanonical(s) && s[0] != '0'
    ensures DigitsValue(s) >= 1
  {
    if |s| > 1 {
      var prefix := s[..|s| - 1];
      assert prefix[0] == s[0];
      CanonicalPositive(prefix);
    }
  }

  /** Every canonical numeral is the numeral of the number it denotes: together
      with the contract of `DecimalString`, numerals and numbers correspond one to one. */
  lemma {:induction false} DecimalStringOfValue(s: string)
    requires IsCanonical(s)
    ensures DecimalString(DigitsValue(s)) == s
  {
    if |s| > 1 {
      var prefix := s[..|s| - 1];
      assert prefix[0] == s[0];
      CanonicalPositive(prefix);
      DecimalStringOfValue(prefix);
      assert s == prefix + [s[|s| - 1]];
    }
  }
}
