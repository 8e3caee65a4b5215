/** Numbers in decimal notation, as fmt and strconv print them. */
module Numerals {
  import opened Steps

  predicate IsDigit(c: char) {
    '0' <= c <= '9'
  }

  function DigitValue(c: char): int {
    c as int - '0' as int
  }

  /* The number a string of digits stands for. */
  function Parsed(digits: string): int {
    if digits == [] then 0 else 10 * Parsed(digits[..|digits| - 1]) + DigitValue(digits[|digits| - 1])
  }

  /* Digits without leading zeros that stand for a number. */
  predicate IsNumeral(s: string, n: nat) {
    s != "" && (forall i | 0 <= i < |s| :: IsDigit(s[i])) && (|s| > 1 ==> s[0] != '0') && Parsed(s) == n
  }

  lemma NumeralAppend(digits: string, n: nat, c: char)
    requires IsDigit(c) && (digits == "" ==> n == 0) && (digits != "" ==> IsNumeral(digits, n) && n > 0)
    ensures IsNumeral(digits + [c], 10 * n + DigitValue(c))
  {
    assert (digits + [c])[..|digits|] == digits;
    if |digits| == 1 {
      assert Parsed(digits[..|digits| - 1]) == 0;
    }
  }

  /** The decimal notation of a number stands for it. */
  lemma {:induction false} DecimalIsNumeral(n: nat)
    ensures IsNumeral(Decimal(n), n)
  {
    hide IsNumeral, Decimal;
    var c := "0123456789"[n % 10];
    assert IsDigit(c) && DigitValue(c) == n % 10;
    DecimalStep(n);
    if n < 10 {
      NumeralAppend("", 0, c);
    } else {
      DecimalIsNumeral(n / 10);
      SomeDigits(Decimal(n / 10), n / 10);
      NumeralAppend(Decimal(n / 10), n / 10, c);
    }
  }

  lemma SomeDigits(s: string, n: nat)
    requires IsNumeral(s, n)
    ensures s != ""
  {
  }

  lemma DecimalStep(n: nat)
    ensures Decimal(n) == (if n < 10 then "" else Decimal(n / 10)) + ["0123456789"[n % 10]]
  {
  }
}
