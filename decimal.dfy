// Decimal rendering of a non-negative count, as `std::to_string` writes an
// unsigned integer: digits only, most significant first, no leading zeros.

module Decimals {

  predicate IsDigit(c: char)
  {
    '0' <= c <= '9'
  }

  function DigitChar(d: nat): (c: char)
    requires d < 10
    ensures IsDigit(c)
  {
    ['0', '1', '2', '3', '4', '5', '6', '7', '8', '9'][d]
  }

  function DigitValue(c: char): (d: nat)
    requires IsDigit(c)
    ensures d < 10
  {
    (c as int - '0' as int) as nat
  }

  /** The decimal digits of `n`: at least one digit, and no leading zero
      unless `n` itself is 0. */
  function Decimal(n: nat): (s: string)
    ensures 1 <= |s|
    ensures forall k :: 0 <= k < |s| ==> IsDigit(s[k])
    ensures |s| > 1 ==> s[0] != '0'
  {
    if n < 10 then [DigitChar(n)] else Decimal(n / 10) + [DigitChar(n % 10)]
  }

  /** Reads a string of digits back as a number. */
  function Parse(s: string): nat
    requires forall k :: 0 <= k < |s| ==> IsDigit(s[k])
  {
    if s == [] then 0 else Parse(s[..|s| - 1]) * 10 + DigitValue(s[|s| - 1])
  }

  /** Reading the rendering of `n` gives `n` back. */
  lemma {:induction false} ParseDecimal(n: nat)
    ensures Parse(Decimal(n)) == n
  {
    var d := DigitChar(n % 10);
    assert DigitValue(d) == n % 10 by {
      assert d == ['0', '1', '2', '3', '4', '5', '6', '7', '8', '9'][n % 10];
    }
    if n >= 10 {
      var s := Decimal(n / 10) + [d];
      assert s[..|s| - 1] == Decimal(n / 10);
      ParseDecimal(n / 10);
    } else {
      assert Decimal(n)[..0] == [];
    }
  }

  /** Distinct counts are rendered differently. */
  lemma DecimalInjective(a: nat, b: nat)
    requires a != b
    ensures Decimal(a) != Decimal(b)
  {
    ParseDecimal(a);
    ParseDecimal(b);
  }
}
