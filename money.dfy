// Fixed-point money. Java keeps amounts as `BigDecimal` with scale 2 and
// rates with scale 4, rounding HALF_UP; here an amount is a whole number of
// cents and a rate a whole number of ten-thousandths.
module Money {

  /** An amount with two decimals, counted in cents. */
  type Cents = int

  /** A rate with four decimals, counted in ten-thousandths (0.2050 is 2050). */
  type Rate = int

  const RateScale: int := 10000

  function Min(a: int, b: int): int { if a <= b then a else b }

  function Abs(a: int): int { if a < 0 then -a else a }

  /**
   * `n / d` rounded to the nearest integer, halves away from zero, which is
   * `RoundingMode.HALF_UP`.
   */
  function RoundHalfUpDiv(n: int, d: int): int
    requires d > 0
  {
    if n >= 0 then (2 * n + d) / (2 * d) else -((2 * -n + d) / (2 * d))
  }

  /** The rounded quotient is within half a unit of the exact one, on the side of zero of `n`. */
  lemma RoundHalfUpDivBounds(n: int, d: int)
    requires d > 0
    ensures var q := RoundHalfUpDiv(n, d);
      n >= 0 ==> q >= 0 && d * (2 * q - 1) <= 2 * n < d * (2 * q + 1)
    ensures var q := RoundHalfUpDiv(n, d);
      n < 0 ==> q <= 0 && d * (2 * q - 1) < 2 * n <= d * (2 * q + 1)
  {
    if n >= 0 {
      DivideNearest(n, d);
    } else {
      DivideNearest(-n, d);
    }
  }

  lemma DivideNearest(n: int, d: int)
    requires n >= 0 && d > 0
    ensures var q := (2 * n + d) / (2 * d);
      q >= 0 && d * (2 * q - 1) <= 2 * n < d * (2 * q + 1)
  {
    var m := 2 * n + d;
    var q := m / (2 * d);
    var r := m % (2 * d);
    assert m == 2 * d * q + r && 0 <= r < 2 * d;
    assert 2 * n == 2 * d * q + r - d;
    assert d * (2 * q - 1) == 2 * d * q - d;
    assert d * (2 * q + 1) == 2 * d * q + d;
  }

  /** Rounding a whole multiple is exact. */
  lemma {:induction false} RoundHalfUpDivExact(k: int, d: int)
    requires d > 0
    ensures RoundHalfUpDiv(k * d, d) == k
  {
    var q := RoundHalfUpDiv(k * d, d);
    RoundHalfUpDivBounds(k * d, d);
    var x := q - k;
    assert d * (2 * q - 1) == 2 * (d * x) + 2 * (k * d) - d;
    assert d * (2 * q + 1) == 2 * (d * x) + 2 * (k * d) + d;
    // So -d <= 2 * (d * x) <= d, which leaves only x == 0.
    TimesAtLeast(d, x);
  }

  /** A product with a non-zero whole number is at least the factor `d` in size. */
  lemma TimesAtLeast(d: int, x: int)
    requires d > 0
    ensures x >= 1 ==> d * x >= d
    ensures x <= -1 ==> d * x <= -d
  {
    assert d * x == d * (x - 1) + d;
    assert d * x == d * (x + 1) - d;
    TimesPositive(d, x - 1);
    TimesPositive(d, x + 1);
  }

  lemma TimesPositive(d: int, x: int)
    requires d > 0
    ensures x > 0 ==> d * x > 0
    ensures x == 0 ==> d * x == 0
    ensures x < 0 ==> d * x < 0
  {
  }
}
