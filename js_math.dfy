/** The JavaScript number operations the rules use, over exact reals:
    `Math.round`, the numeric value of `toFixed(1)`, and the remainder `%`.
    JavaScript computes these on IEEE-754 doubles; here they act on the exact
    value, which is what the rules' branch structure depends on. */
module JsMath {

  /** `Math.round(x)`: the nearest integer, halves rounded up (towards +infinity). */
  function Round(x: real): (r: int)
    ensures x - 0.5 < r as real <= x + 0.5
  {
    (x + 0.5).Floor
  }

  /** `Math.round(x * 10) / 10`: rounding to one decimal. */
  function RoundTenth(x: real): (r: real)
    ensures x - 0.05 < r <= x + 0.05
    ensures Round(r * 10.0) as real == r * 10.0
  {
    var n := Round(x * 10.0);
    assert n as real / 10.0 * 10.0 == n as real;
    n as real / 10.0
  }

  /** `Math.round(x * 100) / 100`: rounding to two decimals. */
  function RoundHundredth(x: real): (r: real)
    ensures x - 0.005 < r <= x + 0.005
    ensures Round(r * 100.0) as real == r * 100.0
  {
    var n := Round(x * 100.0);
    assert n as real / 100.0 * 100.0 == n as real;
    n as real / 100.0
  }

  /** Rounding preserves order. */
  lemma RoundMonotonic(x: real, y: real)
    requires x <= y
    ensures Round(x) <= Round(y)
  {
  }

  /** One-decimal rounding preserves order. */
  lemma RoundTenthMonotonic(x: real, y: real)
    requires x <= y
    ensures RoundTenth(x) <= RoundTenth(y)
  {
    RoundMonotonic(x * 10.0, y * 10.0);
  }

  /** One-decimal rounding leaves a value that already has one decimal
      unchanged. */
  lemma RoundTenthOfTenths(k: int)
    ensures RoundTenth(k as real / 10.0) == k as real / 10.0
  {
    assert (k as real / 10.0) * 10.0 == k as real;
    assert Round(k as real) == k;
  }

  /** The number denoted by the string `x.toFixed(1)`: the nearest multiple of
      0.1, a tie going away from zero (JavaScript rounds the magnitude and then
      restores the sign). */
  function ToFixed1(x: real): (r: real)
    ensures x - 0.05 <= r <= x + 0.05
    ensures x >= 0.0 ==> r >= 0.0
    ensures x <= 0.0 ==> r <= 0.0
    ensures (r * 10.0).Floor as real == r * 10.0
  {
    var n := if x >= 0.0 then Round(x * 10.0) else -Round(-x * 10.0);
    assert n as real / 10.0 * 10.0 == n as real;
    n as real / 10.0
  }

  /** A value with at most one decimal is printed exactly by `toFixed(1)`. */
  lemma {:induction false} ToFixed1OfTenths(k: int)
    ensures ToFixed1(k as real / 10.0) == k as real / 10.0
  {
    if k >= 0 {
      RoundTenthOfTenths(k);
    } else {
      assert -(k as real / 10.0) * 10.0 == (-k) as real;
      assert Round((-k) as real) == -k;
    }
  }

  /** `toFixed(1)` preserves order. */
  lemma ToFixed1Monotonic(x: real, y: real)
    requires x <= y
    ensures ToFixed1(x) <= ToFixed1(y)
  {
    if 0.0 <= x {
      RoundMonotonic(x * 10.0, y * 10.0);
    } else if y < 0.0 {
      RoundMonotonic(-y * 10.0, -x * 10.0);
    }
  }

  /** `toFixed(1)` never goes below a lower bound that itself has one decimal,
      if its argument does not. */
  lemma ToFixed1AtLeast(x: real, k: int)
    requires x >= k as real / 10.0 && k >= 0
    ensures ToFixed1(x) >= k as real / 10.0
  {
    RoundMonotonic(k as real, x * 10.0);
    assert Round(k as real) == k;
  }

  /** JavaScript's `Math.trunc`: the integer part, rounded towards zero. */
  function Trunc(y: real): (r: int)
    ensures y >= 0.0 ==> r >= 0 && r as real <= y < r as real + 1.0
    ensures y < 0.0 ==> r <= 0 && r as real - 1.0 < y <= r as real
  {
    if y >= 0.0 then y.Floor else -((-y).Floor)
  }

  /** Truncation leaves its argument unchanged exactly when the argument is
      a whole number. */
  lemma TruncIsWholeExactly(y: real)
    ensures Trunc(y) as real == y <==> y.Floor as real == y
  {
    if y < 0.0 && y.Floor as real == y {
      assert (-y).Floor == -y.Floor;
    }
  }

  /** JavaScript's remainder `a % 90` (the only divisor the rules use): the
      quotient is truncated towards zero, so the remainder has the sign of the
      dividend, differs from it by a whole multiple of 90, and is zero
      exactly for whole multiples of 90. */
  function Rem90(a: real): (r: real)
    ensures a >= 0.0 ==> 0.0 <= r < 90.0
    ensures a < 0.0 ==> -90.0 < r <= 0.0
    ensures r == 0.0 <==> IsMultipleOf90(a)
    ensures IsMultipleOf90(a - r)
  {
    var q := Trunc(a / 90.0);
    TruncIsWholeExactly(a / 90.0);
    WholeTimes90(q);
    a - 90.0 * q as real
  }

  /** A whole number of times 90 is a whole multiple of 90. */
  lemma WholeTimes90(q: int)
    ensures IsMultipleOf90(90.0 * q as real)
  {
    assert (90.0 * q as real) / 90.0 == q as real;
  }

  /** `a` is a whole multiple of 90: `a / 90` has no fractional part. */
  predicate IsMultipleOf90(a: real)
  {
    (a / 90.0).Floor as real == a / 90.0
  }
}
