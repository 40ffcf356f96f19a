/** Decimal truncation as done by BigDecimal.setScale(scale, ROUND_DOWN):
    every digit after the scale-th decimal is dropped, i.e. the value is
    rounded toward zero onto the grid of multiples of 10^-scale. */
module Decimal {

  function Pow10(n: nat): (r: nat)
    ensures r >= 1
    ensures n > 0 ==> r >= 10
  {
    if n == 0 then 1 else 10 * Pow10(n - 1)
  }

  /** y is an integer. */
  predicate IsWhole(y: real) {
    y.Floor as real == y
  }

  /** x measured in steps of 1/p. */
  function Steps(x: real, p: real): real {
    x * p
  }

  /** The value x lies on the grid of multiples of 10^-scale. */
  predicate OnGrid(x: real, scale: nat) {
    IsWhole(Steps(x, Pow10(scale) as real))
  }

  /** The integer part of y, rounding toward zero: it keeps the sign of y,
      never exceeds it in magnitude and is less than 1 away from it. */
  function TowardZero(y: real): (k: int)
    ensures 0.0 <= y ==> 0 <= k && k as real <= y < k as real + 1.0
    ensures y < 0.0 ==> k <= 0 && y <= k as real && k as real - 1.0 < y
  {
    if y >= 0.0 then y.Floor else -((-y).Floor)
  }

  /** Round toward zero to `scale` decimals: the result keeps the sign of
      x, never exceeds it in magnitude, is less than one grid step away
      from it, has at most `scale` decimals, and is x itself when x
      already has at most `scale` decimals. */
  function TruncateToScale(x: real, scale: nat): (r: real)
    ensures 0.0 <= x ==> 0.0 <= r <= x && x - r < 1.0 / Pow10(scale) as real
    ensures x < 0.0 ==> x <= r <= 0.0 && r - x < 1.0 / Pow10(scale) as real
    ensures OnGrid(r, scale)
    ensures OnGrid(x, scale) ==> r == x
  {
    TruncateToStep(x, Pow10(scale) as real)
  }

  /** Round toward zero onto the grid of multiples of 1/p. */
  function TruncateToStep(x: real, p: real): (r: real)
    requires p > 0.0
    ensures 0.0 <= x ==> 0.0 <= r <= x && x - r < 1.0 / p
    ensures x < 0.0 ==> x <= r <= 0.0 && r - x < 1.0 / p
    ensures IsWhole(Steps(r, p))
    ensures IsWhole(Steps(x, p)) ==> r == x
  {
    var k := TowardZero(x * p);
    var r := k as real / p;
    ScaleBack(x, p, x * p, k);
    WholeMultiple(k, p, r);
    StepFixesGrid(x, p, k);
    r
  }

  lemma MulMonotone(a: real, b: real, p: real)
    requires a <= b && 0.0 <= p
    ensures a * p <= b * p
  {
  }

  lemma DivMonotone(a: real, b: real, p: real)
    requires a <= b && 0.0 < p
    ensures a / p <= b / p
  {
    assert b / p - a / p == (b - a) / p;
  }

  lemma DivMulCancel(a: real, p: real)
    requires p != 0.0
    ensures a / p * p == a
  {
  }

  lemma DivLe(a: real, b: real, p: real)
    requires p > 0.0 && a <= b * p
    ensures a / p <= b
  {
    DivMulCancel(a, p);
  }

  lemma DivGe(a: real, b: real, p: real)
    requires p > 0.0 && b * p <= a
    ensures b <= a / p
  {
    DivMulCancel(a, p);
  }

  lemma DivGt(a: real, b: real, p: real)
    requires p > 0.0 && b * p - 1.0 < a
    ensures b - 1.0 / p < a / p
  {
    assert (b - 1.0 / p) * p == b * p - 1.0;
    DivMulCancel(a, p);
  }

  lemma DivLt(a: real, b: real, p: real)
    requires p > 0.0 && a < b * p + 1.0
    ensures a / p < b + 1.0 / p
  {
    assert (b + 1.0 / p) * p == b * p + 1.0;
    DivMulCancel(a, p);
  }

  lemma NegativeProduct(x: real, p: real)
    requires x < 0.0 && p > 0.0
    ensures x * p < 0.0
  {
  }

  /** Scaling an integer k within 1 of y = x * p, on the zero side of it,
      back by 1/p: the result keeps the sign of x, never exceeds it in
      magnitude and is within 1/p of it. */
  lemma ScaleBack(x: real, p: real, y: real, k: int)
    requires p > 0.0 && y == x * p
    requires 0.0 <= y ==> 0 <= k && k as real <= y < k as real + 1.0
    requires y < 0.0 ==> k <= 0 && y <= k as real && k as real - 1.0 < y
    ensures 0.0 <= x ==> 0.0 <= k as real / p <= x && x - k as real / p < 1.0 / p
    ensures x < 0.0 ==> x <= k as real / p <= 0.0 && k as real / p - x < 1.0 / p
  {
    var c := k as real;
    if 0.0 <= x {
      MulMonotone(0.0, x, p);
      DivGe(c, 0.0, p);
      DivLe(c, x, p);
      DivGt(c, x, p);
    } else {
      NegativeProduct(x, p);
      DivLe(c, 0.0, p);
      DivGe(c, x, p);
      DivLt(c, x, p);
    }
  }

  /** k/p is a multiple of 1/p. */
  lemma WholeMultiple(k: int, p: real, r: real)
    requires p != 0.0 && r == k as real / p
    ensures IsWhole(Steps(r, p))
  {
    DivMulCancel(k as real, p);
    assert Steps(r, p) == k as real;
    assert (k as real).Floor == k;
  }

  /** Rounding a whole number toward zero changes nothing. */
  lemma TowardZeroWhole(y: real)
    requires IsWhole(y)
    ensures TowardZero(y) as real == y
  {
    var n := y.Floor;
    assert -y == (-n) as real;
  }

  /** A point of the grid is its own integer count of steps, scaled back. */
  lemma StepFixesGrid(x: real, p: real, k: int)
    requires p > 0.0 && k == TowardZero(x * p)
    ensures IsWhole(Steps(x, p)) ==> k as real / p == x
  {
    if IsWhole(Steps(x, p)) {
      TowardZeroWhole(x * p);
      DivLe(x * p, x, p);
      DivGe(x * p, x, p);
    }
  }

  /** Truncating twice is truncating once. */
  lemma TruncateIdempotent(x: real, scale: nat)
    ensures TruncateToScale(TruncateToScale(x, scale), scale) == TruncateToScale(x, scale)
  {
  }

  /** Rounding toward zero is monotone. */
  lemma TowardZeroMonotone(a: real, b: real)
    requires a <= b
    ensures TowardZero(a) <= TowardZero(b)
  {
  }

  /** TruncateToStep is monotone. */
  lemma StepMonotone(x: real, y: real, p: real)
    requires x <= y && p > 0.0
    ensures TruncateToStep(x, p) <= TruncateToStep(y, p)
  {
    MulMonotone(x, y, p);
    TowardZeroMonotone(x * p, y * p);
    DivMonotone(TowardZero(x * p) as real, TowardZero(y * p) as real, p);
  }

  /** Truncation toward zero is monotone. */
  lemma TruncateMonotone(x: real, y: real, scale: nat)
    requires x <= y
    ensures TruncateToScale(x, scale) <= TruncateToScale(y, scale)
  {
    StepMonotone(x, y, Pow10(scale) as real);
  }
}
