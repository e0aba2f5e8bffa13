/** Small facts about products of reals, proved step by step so that the
    proofs of the rules do not depend on the solver's non-linear heuristics. */
module Arith {

  lemma MulNonNegative(x: real, y: real)
    requires x >= 0.0 && y >= 0.0
    ensures x * y >= 0.0
  {
  }

  lemma MulPositive(x: real, y: real)
    requires x > 0.0 && y > 0.0
    ensures x * y > 0.0
  {
  }

  /** Multiplying by a non-negative factor preserves order. */
  lemma MulMonotonic(x: real, y: real, z: real)
    requires x >= 0.0 && y <= z
    ensures x * y <= x * z
  {
    assert x * z - x * y == x * (z - y);
    MulNonNegative(x, z - y);
  }

  /** A product of two factors in [0, 1] lies in [0, 1]. */
  lemma MulFractions(x: real, y: real)
    requires 0.0 <= x <= 1.0 && 0.0 <= y <= 1.0
    ensures 0.0 <= x * y <= 1.0
  {
    MulNonNegative(x, y);
    MulMonotonic(x, y, 1.0);
    assert x * 1.0 == x;
    assert x * y <= x;
  }

  /** Scaling a non-negative base by two fractions and a non-negative factor
      gives a value between 0 and the base times that factor. The product is
      passed in as its own value so that callers see a linear fact. */
  lemma ScaledFractionsBounded(base: real, x: real, y: real, scale: real, product: real)
    requires base >= 0.0 && 0.0 <= x <= 1.0 && 0.0 <= y <= 1.0 && scale >= 0.0
    requires product == base * x * y * scale
    ensures 0.0 <= product <= base * scale
  {
    MulFractions(x, y);
    var xy := x * y;
    var bs := base * scale;
    MulNonNegative(base, scale);
    MulNonNegative(bs, xy);
    MulMonotonic(bs, xy, 1.0);
    assert product == bs * xy;
  }

  /** A square is non-negative and zero only at zero. */
  lemma SquareFacts(x: real)
    ensures x * x >= 0.0
    ensures x != 0.0 ==> x * x > 0.0
  {
    if x < 0.0 {
      MulPositive(-x, -x);
      assert (-x) * (-x) == x * x;
    } else if x > 0.0 {
      MulPositive(x, x);
      assert x * x != 0.0;
    } else {
      assert x * x == 0.0;
    }
  }

  /** A quotient of a value in [0, d] by a positive d lies in [0, 1]. */
  lemma QuotientInUnitRange(s: real, d: real)
    requires d > 0.0 && 0.0 <= s <= d
    ensures 0.0 <= s / d <= 1.0
  {
    var q := s / d;
    assert q * d == s;
    if q > 1.0 {
      MulPositive(q - 1.0, d);
    }
    if q < 0.0 {
      MulPositive(-q, d);
    }
  }
}
