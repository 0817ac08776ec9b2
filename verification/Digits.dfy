/** Decimal digits, of dates and of ids. */
module Digits {
  predicate IsDigit(c: char) {
    '0' <= c <= '9'
  }

  predicate AllDigits(s: string) {
    forall i :: 0 <= i < |s| ==> IsDigit(s[i])
  }

  /** The number that decimal digits stand for. */
  function ToNat(digits: string): nat
    requires AllDigits(digits)
  {
    if digits == [] then 0 else 10 * ToNat(digits[..|digits| - 1]) + (digits[|digits| - 1] - '0') as nat
  }
}
