/** Line totals: half-up rounding to whole cents, and how far the rounded document total is from
    the exact one. Scales: quantity and price in hundredths, rate in thousandths of a percent. */
module Rounding {
  import opened Wrappers
  import opened Sums
  import opened Records

  /** `numerator / denominator` rounded half-up for a non-negative numerator: the nearest integer,
      and the upper one at the exact midpoint. */
  function RoundHalfUp(numerator: nat, denominator: nat): (r: nat)
    requires denominator > 0
    ensures 2 * numerator - denominator < 2 * r * denominator <= 2 * numerator + denominator
  {
    var r := (2 * numerator + denominator) / (2 * denominator);
    r
  }

  /** The two bounds of `RoundHalfUp` leave exactly one integer. */
  lemma RoundHalfUpUnique(numerator: nat, denominator: nat, r: int)
    requires denominator > 0
    requires 2 * numerator - denominator < 2 * r * denominator <= 2 * numerator + denominator
    ensures r == RoundHalfUp(numerator, denominator)
  {
    var q := RoundHalfUp(numerator, denominator);
    var d: int := denominator;
    assert -2 * d < 2 * (r - q) * d < 2 * d;
    assert -d < (r - q) * d < d;
    StrictlyWithin(r - q, denominator);
  }

  lemma StrictlyWithin(k: int, d: nat)
    requires -(d as int) < k * d < d
    ensures k == 0
  {
    if k >= 1 {
      MulOrder(1, k, d);
    } else if k <= -1 {
      MulOrder(1, -k, d);
    }
  }

  lemma MulOrder(a: int, b: int, d: nat)
    requires a <= b
    ensures a * d <= b * d
  {
  }

  function LineSubtotal(quantity: nat, price: nat): nat
  {
    RoundHalfUp(quantity * price, 100)
  }

  function LineTax(subtotal: nat, rate: nat): nat
  {
    RoundHalfUp(subtotal * rate, 100_000)
  }

  /** One line, scaled by 10^7: half a cent of subtotal, half a cent of tax, and the tax on half a cent. */
  lemma LineRoundingBound(quantity: nat, price: nat, rate: nat)
    ensures var subtotal := LineSubtotal(quantity, price);
            -10_000_000 - 50 * rate
            <= 10_000_000 * (subtotal + LineTax(subtotal, rate)) - quantity * price * (100_000 + rate)
            <= 10_000_000 + 50 * rate
  {
    var exact := quantity * price;
    var subtotal := LineSubtotal(quantity, price);
    var tax := LineTax(subtotal, rate);
    var off: int := 100 * subtotal - exact;
    assert -50 <= off <= 50;
    MulOrder(-50, off, rate);
    MulOrder(off, 50, rate);
    var taxOff: int := 100_000 * tax - subtotal * rate;
    assert -50_000 <= taxOff <= 50_000;
    assert 10_000_000 * (subtotal + tax) - exact * (100_000 + rate) == 100_000 * off + 100 * taxOff + off * rate;
  }

  /** One line of 0.01 x 0.50 at 50% is off by the whole bound. */
  lemma LineRoundingBoundIsReached()
    ensures var subtotal := LineSubtotal(1, 50);
            10_000_000 * (subtotal + LineTax(subtotal, 50_000)) - 1 * 50 * (100_000 + 50_000) == 10_000_000 + 50 * 50_000
  {
    assert LineSubtotal(1, 50) == 1;
    assert LineTax(1, 50_000) == 1;
  }
}
