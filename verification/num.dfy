/** Small real-number helpers that mirror the JavaScript Math functions the
    simulation uses. The source computes on IEEE doubles; the model uses
    exact reals. */
module Num {

  /** Math.min on two numbers. */
  function Min(a: real, b: real): (r: real)
    ensures r <= a && r <= b
    ensures r == a || r == b
  {
    if a <= b then a else b
  }

  /** Math.max on two numbers. */
  function Max(a: real, b: real): (r: real)
    ensures r >= a && r >= b
    ensures r == a || r == b
  {
    if a >= b then a else b
  }

  /** Math.abs. */
  function Abs(a: real): (r: real)
    ensures r >= 0.0
    ensures r == a || r == -a
  {
    if a < 0.0 then -a else a
  }

  /** Math.sign: -1, 0 or 1. */
  function Sign(a: real): (r: real)
    ensures r * a == Abs(a)
    ensures r == 0.0 <==> a == 0.0
  {
    if a > 0.0 then 1.0 else if a < 0.0 then -1.0 else 0.0
  }

  /** Scaling a non-negative quantity by a factor in [lo, hi] keeps it in the scaled range. */
  lemma ScaleBounds(x: real, f: real, lo: real, hi: real)
    requires x >= 0.0 && lo <= f <= hi
    ensures x * lo <= x * f <= x * hi
  {
  }

  /** A product of non-negative reals is non-negative. */
  lemma ProductNonNegative(a: real, b: real)
    requires a >= 0.0 && b >= 0.0
    ensures a * b >= 0.0
  {
  }

  /** One in-place scaling `v *= b`. */
  function Scale(v: real, b: real): real
  {
    v * b
  }

  /** `v` after `n` in-place scalings by `b`. */
  function Scaled(v: real, b: real, n: nat): real
    decreases n
  {
    if n == 0 then v else Scaled(Scale(v, b), b, n - 1)
  }

  /** Scaling once more before the rest is one more scaling. */
  lemma ScaledStep(v: real, b: real, n: nat)
    ensures Scaled(Scale(v, b), b, n) == Scaled(v, b, n + 1)
  {
  }

  /** One scaling by a factor in [0, 1] moves towards zero without passing it. */
  lemma ScaleShrinks(v: real, b: real)
    requires 0.0 <= b <= 1.0
    ensures v >= 0.0 ==> 0.0 <= Scale(v, b) <= v
    ensures v < 0.0 ==> v <= Scale(v, b) <= 0.0
  {
    if v >= 0.0 {
      ScaleBounds(v, b, 0.0, 1.0);
      assert 0.0 <= v * b <= v * 1.0;
      assert v * 1.0 == v;
      assert Scale(v, b) == v * b;
    } else {
      ScaleBounds(-v, b, 0.0, 1.0);
      assert 0.0 <= (-v) * b <= (-v) * 1.0;
      assert (-v) * 1.0 == -v;
      assert v * b == -((-v) * b);
      assert Scale(v, b) == v * b;
    }
  }

  /** Scaling by a factor in [0, 1] never increases the magnitude and never
      flips the sign. */
  lemma {:induction false} ScaledShrinks(v: real, b: real, n: nat)
    requires 0.0 <= b <= 1.0
    ensures Abs(Scaled(v, b, n)) <= Abs(v)
    ensures (v >= 0.0 ==> Scaled(v, b, n) >= 0.0) && (v <= 0.0 ==> Scaled(v, b, n) <= 0.0)
    decreases n
  {
    if n > 0 {
      ScaleShrinks(v, b);
      ScaledShrinks(Scale(v, b), b, n - 1);
    }
  }
}
