/** Decimal text of non-negative integers, as `Number.prototype.toString` and
    template literals render them, with the value it reads back as. */
module Decimal {

  predicate IsDigit(c: char)
  {
    '0' <= c <= '9'
  }

  predicate AllDigits(s: string)
  {
    forall i :: 0 <= i < |s| ==> IsDigit(s[i])
  }

  function DigitChar(d: nat): (c: char)
    requires d < 10
    ensures IsDigit(c)
  {
    (d + 48) as char
  }

  function DigitValue(c: char): (d: nat)
    requires IsDigit(c)
    ensures d < 10
  {
    c as int - 48
  }

  function Pow10(k: nat): (p: nat)
    ensures p >= 1
  {
    if k == 0 then 1 else 10 * Pow10(k - 1)
  }

  /** The shortest decimal numeral of `n`. */
  function ToDecimal(n: nat): (s: string)
    ensures |s| >= 1 && AllDigits(s)
  {
    if n < 10 then [DigitChar(n)] else ToDecimal(n / 10) + [DigitChar(n % 10)]
  }

  /** The value a string of digits denotes, most significant digit first. */
  function ValueOf(s: string): nat
    requires AllDigits(s)
  {
    if s == [] then 0 else 10 * ValueOf(s[..|s| - 1]) + DigitValue(s[|s| - 1])
  }

  /** Reading back the numeral of `n` gives `n`. */
  lemma {:induction false} ValueOfToDecimal(n: nat)
    ensures ValueOf(ToDecimal(n)) == n
  {
    var s := ToDecimal(n);
    if n < 10 {
      assert s[..|s| - 1] == [];
    } else {
      assert s[..|s| - 1] == ToDecimal(n / 10);
      ValueOfToDecimal(n / 10);
    }
  }

  /** The numeral starts with '0' only for zero itself: no leading zeros. */
  lemma {:induction false} ToDecimalLeadingDigit(n: nat)
    ensures ToDecimal(n)[0] == '0' <==> n == 0
  {
    if n >= 10 {
      ToDecimalLeadingDigit(n / 10);
      assert ToDecimal(n)[0] == ToDecimal(n / 10)[0];
    }
  }

  /** A number with k digits, 10^(k-1) <= n < 10^k, has a numeral of length k
      whose leading digit is not zero. */
  lemma {:induction false} ToDecimalLength(n: nat, k: nat)
    requires k >= 1 && Pow10(k - 1) <= n < Pow10(k)
    ensures |ToDecimal(n)| == k
    ensures ToDecimal(n)[0] != '0'
  {
    if n >= 10 {
      assert k >= 2;
      ToDecimalLength(n / 10, k - 1);
    }
  }
}
