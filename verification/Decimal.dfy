/** Unsigned decimal numbers, printed and read. */
module Decimal {
  import opened Types

  predicate IsDigit(c: char) {
    '0' <= c <= '9'
  }

  function DigitChar(n: nat): char
    requires n < 10
  {
    ['0', '1', '2', '3', '4', '5', '6', '7', '8', '9'][n]
  }

  function DigitValue(c: char): nat
    requires IsDigit(c)
  {
    c as int - '0' as int
  }

  /** The verb %d of an unsigned number. */
  function PrintNat(n: nat): (text: string)
    ensures text != [] && forall k :: 0 <= k < |text| ==> IsDigit(text[k])
  {
    if n < 10 then [DigitChar(n)] else PrintNat(n / 10) + [DigitChar(n % 10)]
  }

  function DecimalValue(digits: string): nat
    requires forall k :: 0 <= k < |digits| ==> IsDigit(digits[k])
  {
    if digits == [] then 0
    else
      assert IsDigit(digits[|digits| - 1]);
      10 * DecimalValue(Front(digits)) + DigitValue(Last(digits))
  }

  lemma {:induction false} PrintedValue(n: nat)
    ensures DecimalValue(PrintNat(n)) == n
  {
    if n < 10 {
      assert Front([DigitChar(n)]) == [];
    } else {
      PrintedValue(n / 10);
      assert Front(PrintNat(n)) == PrintNat(n / 10);
    }
  }

  /** Different numbers have different texts. */
  lemma PrintedIsUnique(a: nat, b: nat)
    requires PrintNat(a) == PrintNat(b)
    ensures a == b
  {
    PrintedValue(a);
    PrintedValue(b);
  }
}
