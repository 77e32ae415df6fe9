/** Base-10 text of unsigned ledger integers: `BigNumber.toString()` on the
    way out, and the digit strings `parseInt` reads on the way in. */
module Decimal {

  predicate IsDigit(c: char)
  {
    '0' <= c <= '9'
  }

  predicate AllDigits(s: string)
  {
    forall i :: 0 <= i < |s| ==> IsDigit(s[i])
  }

  /** A digit string as `BigNumber.toString()` writes it: no sign and no
      leading zero, except for the number zero itself. */
  predicate IsCanonical(s: string)
  {
    |s| >= 1 && AllDigits(s) && (s[0] == '0' ==> s == "0")
  }

  function DigitValue(c: char): nat
    requires IsDigit(c)
  {
    c as int - '0' as int
  }

  function DigitChar(d: nat): char
    requires d < 10
  {
    ('0' as int + d) as char
  }

  /** `BigNumber.toString()` of an unsigned value. */
  function DecimalString(n: nat): (s: string)
    ensures IsCanonical(s)
    ensures n >= 10 ==> |s| >= 2
    decreases n
  {
    if n < 10 then [DigitChar(n)]
    else DecimalString(n / 10) + [DigitChar(n % 10)]
  }

  /** The value a run of decimal digits denotes (leading zeros allowed). */
  function DigitsValue(s: string): nat
    requires AllDigits(s)
  {
    if |s| == 0 then 0
    else 10 * DigitsValue(s[..|s| - 1]) + DigitValue(s[|s| - 1])
  }

  /** Reading back the text of a value gives the value. */
  lemma {:induction false} DigitsValueOfDecimalString(n: nat)
    ensures DigitsValue(DecimalString(n)) == n
    decreases n
  {
    var s := DecimalString(n);
    if n >= 10 {
      var t := DecimalString(n / 10);
      assert s[..|s| - 1] == t;
      DigitsValueOfDecimalString(n / 10);
    }
  }

  lemma {:induction false} LeadingDigitBound(s: string)
    requires |s| >= 1 && AllDigits(s)
    ensures DigitsValue(s) >= DigitValue(s[0])
    decreases |s|
  {
    if |s| > 1 {
      var t := s[..|s| - 1];
      assert t[0] == s[0];
      LeadingDigitBound(t);
    }
  }

  /** Writing the value of a canonical digit string gives the string back:
      canonical text and values are in one-to-one correspondence. */
  lemma {:induction false} DecimalStringOfDigitsValue(s: string)
    requires IsCanonical(s)
    ensures DecimalString(DigitsValue(s)) == s
    decreases |s|
  {
    if |s| > 1 {
      var t := s[..|s| - 1];
      assert t[0] == s[0];
      assert s[0] != '0';
      LeadingDigitBound(t);
      DecimalStringOfDigitsValue(t);
      var v := DigitsValue(s);
      assert v / 10 == DigitsValue(t) && v % 10 == DigitValue(s[|s| - 1]);
      assert s == t + [s[|s| - 1]];
    }
  }

  /** The text `isInt` accepts (leading zeros allowed): an optional sign
      followed by at least one digit. */
  predicate IsIntText(s: string)
  {
    |s| >= 1 &&
    if s[0] == '+' || s[0] == '-' then |s| >= 2 && AllDigits(s[1..])
    else AllDigits(s)
  }

  /** The integer `parseInt` reads from text that `IsIntText` accepts;
      "-0" reads as zero (JavaScript's negative zero is not distinguished). */
  function IntTextValue(s: string): int
    requires IsIntText(s)
  {
    if s[0] == '-' then -(DigitsValue(s[1..]) as int)
    else if s[0] == '+' then DigitsValue(s[1..])
    else DigitsValue(s)
  }

  /** The text of a value reads back as that value through `parseInt`. */
  lemma IntTextOfDecimalString(n: nat)
    ensures IsIntText(DecimalString(n))
    ensures IntTextValue(DecimalString(n)) == n
  {
    DigitsValueOfDecimalString(n);
  }
}
