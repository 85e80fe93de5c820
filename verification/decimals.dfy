/** The exact decimal numbers a Ruby BigDecimal holds. */
module Decimals {

  /** The number `digits × 10^(-exponent)`. Every finite BigDecimal, and every Integer
      (with exponent 0), has this form. */
  datatype Decimal = Decimal(digits: int, exponent: nat)

  function Pow10(n: nat): (r: nat)
    ensures r >= 1
  {
    if n == 0 then 1 else 10 * Pow10(n - 1)
  }

  /** The exact rational value denoted by `d`. */
  function Value(d: Decimal): real {
    d.digits as real / Pow10(d.exponent) as real
  }

  /** `BigDecimal(n)` for an Integer `n`. */
  function FromInteger(n: int): (d: Decimal)
    ensures Value(d) == n as real
  {
    Decimal(n, 0)
  }

  lemma Pow10AddTwo(e: nat)
    ensures Pow10(e + 2) == 100 * Pow10(e)
  {
  }

  /** Moving the decimal point two places left divides the value by exactly 100. */
  lemma {:induction false} ShiftTwoDividesBy100(n: int, e: nat)
    ensures Value(Decimal(n, e + 2)) == Value(Decimal(n, e)) / 100.0
  {
    var p := Pow10(e) as real;
    Pow10AddTwo(e);
    assert Pow10(e + 2) as real == 100.0 * p;
    assert n as real / (100.0 * p) == (n as real / p) / 100.0 by {
      assert p > 0.0;
    }
  }

  /** `d / 100` on a BigDecimal. The quotient is again a finite decimal, so no rounding
      happens: the result is the exact hundredth of `d`. */
  function DivBy100(d: Decimal): (r: Decimal)
    ensures Value(r) == Value(d) / 100.0
  {
    ShiftTwoDividesBy100(d.digits, d.exponent);
    Decimal(d.digits, d.exponent + 2)
  }
}
