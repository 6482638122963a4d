/**
 * Decimal text of natural numbers: `str(n)` for a non-negative integer and
 * `int(s)` for the digit strings that `str` produces.
 */
module Decimal {

  predicate IsDigit(c: char) {
    '0' <= c <= '9'
  }

  /** A non-empty string of decimal digits: what `int` accepts here. */
  predicate IsDecimal(s: string) {
    s != [] && forall i :: 0 <= i < |s| ==> IsDigit(s[i])
  }

  /** A decimal string without superfluous leading zeros, as `str` writes it. */
  predicate IsCanonical(s: string) {
    IsDecimal(s) && (|s| == 1 || s[0] != '0')
  }

  function DigitChar(d: nat): (c: char)
    requires d < 10
    ensures IsDigit(c)
  {
    ('0' as int + d) as char
  }

  function DigitValue(c: char): (d: nat)
    requires IsDigit(c)
    ensures d < 10 && DigitChar(d) == c
  {
    c as int - '0' as int
  }

  /** `str(n)` for a natural number `n`. */
  function DecimalString(n: nat): (s: string)
    ensures IsCanonical(s)
  {
    if n < 10 then [DigitChar(n)]
    else DecimalString(n / 10) + [DigitChar(n % 10)]
  }

  /** `int(s)` for a string of decimal digits. */
  function ParseDecimal(s: string): (n: nat)
    requires IsDecimal(s)
    ensures s[0] != '0' ==> n >= 1
  {
    if |s| == 1 then DigitValue(s[0])
    else ParseDecimal(s[..|s| - 1]) * 10 + DigitValue(s[|s| - 1])
  }

  /** Reading back what `str` wrote gives the number again. */
  lemma {:induction false} ParseDecimalString(n: nat)
    ensures ParseDecimal(DecimalString(n)) == n
  {
    if n >= 10 {
      var s := DecimalString(n);
      assert s[..|s| - 1] == DecimalString(n / 10);
      ParseDecimalString(n / 10);
    }
  }

  /** Distinct numbers have distinct decimal texts. */
  lemma DecimalStringInjective(m: nat, n: nat)
    requires DecimalString(m) == DecimalString(n)
    ensures m == n
  {
    ParseDecimalString(m);
    ParseDecimalString(n);
  }

  /** Writing back what was read from a canonical string gives the string again. */
  lemma {:induction false} DecimalStringParse(s: string)
    requires IsCanonical(s)
    ensures DecimalString(ParseDecimal(s)) == s
  {
    if |s| > 1 {
      var p, d := s[..|s| - 1], s[|s| - 1];
      DecimalStringParse(p);
      var n := ParseDecimal(s);
      assert n == ParseDecimal(p) * 10 + DigitValue(d);
      assert n / 10 == ParseDecimal(p) && n % 10 == DigitValue(d);
      assert s == p + [d];
    }
  }
}
