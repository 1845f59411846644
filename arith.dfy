// Facts about division and shares of real numbers that several rates and
// percentages of the model rest on.
module Arith {
  /** Dividing by a positive number keeps the order. */
  lemma QuotientMonotone(x: real, y: real, n: real)
    requires n > 0.0 && x <= y
    ensures x / n <= y / n
  {
    var d := y / n - x / n;
    assert d * n == y - x;
  }

  /** A part of a positive whole is a fraction in [0,1], and the whole one exactly when it is all of it. */
  lemma FractionOfWhole(part: real, whole: real)
    requires whole > 0.0 && 0.0 <= part <= whole
    ensures 0.0 <= part / whole <= 1.0
    ensures part / whole == 1.0 <==> part == whole
  {
    QuotientMonotone(0.0, part, whole);
    QuotientMonotone(part, whole, whole);
    if part / whole == 1.0 {
      assert part == part / whole * whole;
    }
  }

  /** A percentage in [0,100] of a non-negative amount lies between 0 and the amount. */
  lemma ScaledShare(amount: real, percentage: real)
    requires amount >= 0.0 && 0.0 <= percentage <= 100.0
    ensures 0.0 <= amount * percentage / 100.0 <= amount
  {
    assert 0.0 <= amount * percentage <= amount * 100.0;
  }

  /** The sign of a quotient by a positive number, and when it stays below one. */
  lemma QuotientBounds(x: real, n: real)
    requires n > 0.0
    ensures x <= 0.0 ==> x / n <= 0.0
    ensures x >= 0.0 ==> x / n >= 0.0
    ensures x <= n ==> x / n <= 1.0
  {
    if x <= 0.0 {
      QuotientMonotone(x, 0.0, n);
    }
    if x >= 0.0 {
      QuotientMonotone(0.0, x, n);
    }
    if x <= n {
      QuotientMonotone(x, n, n);
    }
  }

  /** The shares of a positive whole held by a part and by the rest add up to 100 percent. */
  lemma SharesAddUp(part: real, whole: real)
    requires whole > 0.0
    ensures (whole - part) / whole * 100.0 + part / whole * 100.0 == 100.0
  {
    var rest := (whole - part) / whole;
    var share := part / whole;
    assert rest * whole == whole - part;
    assert share * whole == part;
    assert (rest + share - 1.0) * whole == 0.0;
  }
}
