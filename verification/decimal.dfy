/**
 Decimal digit strings and their natural-number values.

 The indexing service transmits block numbers and timestamps as decimal
 strings; the query handler turns them into numbers with JavaScript's
 `Number(...)`. On a string made only of the digits 0-9 whose value is at
 most 2^53 - 1 that conversion is the ordinary base-ten value (leading zeros
 ignored, the empty string read as 0), and that is what `ParseNat` computes;
 above 2^53 `Number` rounds to a double and `ParseNat` does not. `FormatNat`
 is the canonical rendering the service uses, and the two are inverse to
 each other.
 */
module Decimal {

  predicate IsDigit(c: char) {
    '0' <= c <= '9'
  }

  /** Every character is a decimal digit (the empty string included). */
  predicate AllDigits(s: string) {
    forall i :: 0 <= i < |s| ==> IsDigit(s[i])
  }

  /** A non-empty string of decimal digits. */
  predicate IsDigitString(s: string) {
    |s| > 0 && AllDigits(s)
  }

  /** A digit string without superfluous leading zeros: "0", "7", "120", but not "007". */
  predicate IsCanonical(s: string) {
    IsDigitString(s) && (|s| == 1 || s[0] != '0')
  }

  function DigitValue(c: char): (d: nat)
    requires IsDigit(c)
    ensures d < 10
  {
    (c as int - '0' as int) as nat
  }

  function DigitChar(d: nat): (c: char)
    requires d < 10
    ensures IsDigit(c) && DigitValue(c) == d
  {
    ('0' as int + d) as char
  }

  function Pow10(k: nat): (p: nat)
    ensures p >= 1
  {
    if k == 0 then 1 else 10 * Pow10(k - 1)
  }

  /** The base-ten value of a digit string, most significant digit first. */
  function ParseNat(s: string): (n: nat)
    requires AllDigits(s)
    ensures n < Pow10(|s|)
  {
    if |s| == 0 then 0
    else ParseNat(s[..|s| - 1]) * 10 + DigitValue(s[|s| - 1])
  }

  /** The canonical decimal rendering of a natural number. */
  function FormatNat(n: nat): (s: string)
    ensures IsCanonical(s)
    ensures |s| == 1 <==> n < 10
  {
    if n < 10 then [DigitChar(n)]
    else FormatNat(n / 10) + [DigitChar(n % 10)]
  }

  /** Parsing undoes formatting, for every natural number. */
  lemma {:induction false} ParseFormat(n: nat)
    ensures ParseNat(FormatNat(n)) == n
  {
    if n >= 10 {
      var prefix := FormatNat(n / 10);
      var s := FormatNat(n);
      assert s[..|s| - 1] == prefix;
      ParseFormat(n / 10);
    }
  }

  /** A digit string whose first digit is not zero denotes a positive number. */
  lemma {:induction false} LeadingDigitPositive(s: string)
    requires IsDigitString(s) && s[0] != '0'
    ensures ParseNat(s) >= Pow10(|s| - 1)
  {
    if |s| > 1 {
      var prefix := s[..|s| - 1];
      assert prefix[0] == s[0];
      LeadingDigitPositive(prefix);
    }
  }

  /** Formatting undoes parsing, for every canonical digit string. */
  lemma {:induction false} FormatParse(s: string)
    requires IsCanonical(s)
    ensures FormatNat(ParseNat(s)) == s
  {
    if |s| > 1 {
      var prefix := s[..|s| - 1];
      assert prefix[0] == s[0];
      LeadingDigitPositive(s);
      FormatParse(prefix);
      assert s == prefix + [s[|s| - 1]];
    }
  }

  /** Two canonical strings with the same value are the same string. */
  lemma ParseCanonicalInjective(s: string, t: string)
    requires IsCanonical(s) && IsCanonical(t)
    requires ParseNat(s) == ParseNat(t)
    ensures s == t
  {
    FormatParse(s);
    FormatParse(t);
  }

  /** Leading zeros do not change the value, as with `Number("007") == 7`. */
  lemma {:induction false} LeadingZeroIgnored(s: string)
    requires AllDigits(s)
    ensures ParseNat("0" + s) == ParseNat(s)
  {
    if |s| > 0 {
      var prefix := s[..|s| - 1];
      assert ("0" + s)[..|"0" + s| - 1] == "0" + prefix;
      LeadingZeroIgnored(prefix);
    }
  }
}
