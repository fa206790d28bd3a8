/**
 * The three p5.js helpers the particle engine relies on, stated over exact
 * reals: `abs`, `map` (an unclamped linear remap) and `random(lo, hi)`.
 * Randomness is not modelled as a source: `random` takes the unit draw that
 * p5 would obtain from its generator as an explicit argument.
 */
module P5Math {

  function Abs(v: real): (r: real)
    ensures r >= 0.0
    ensures r == v || r == -v
  {
    if v < 0.0 then -v else v
  }

  function Min(a: real, b: real): real { if a <= b then a else b }

  function Max(a: real, b: real): real { if a <= b then b else a }

  /** True when v lies between a and b, whichever of the two is larger. */
  predicate Between(v: real, a: real, b: real) {
    Min(a, b) <= v <= Max(a, b)
  }

  /** A draw of p5's generator, in the unit interval. */
  predicate IsUnit(u: real) {
    0.0 <= u <= 1.0
  }

  /**
   * p5's `map(v, lo1, hi1, lo2, hi2)`: the linear function sending lo1 to lo2
   * and hi1 to hi2, applied without clamping. p5 divides by hi1 - lo1; every
   * call in the sketch passes two different constants there.
   */
  function Remap(v: real, lo1: real, hi1: real, lo2: real, hi2: real): real
    requires lo1 != hi1
  {
    lo2 + (v - lo1) / (hi1 - lo1) * (hi2 - lo2)
  }

  /**
   * p5's `random(lo, hi)` for the unit draw u: p5 first swaps the bounds when
   * lo > hi, then returns lo + u * (hi - lo).
   */
  function Random(lo: real, hi: real, u: real): (r: real)
    requires IsUnit(u)
    ensures Between(r, lo, hi)
  {
    if lo <= hi then Lerp(lo, hi, u) else Lerp(hi, lo, u)
  }

  /** The point a fraction u of the way from a to b. */
  function Lerp(a: real, b: real, u: real): (r: real)
    requires a <= b && IsUnit(u)
    ensures a <= r <= b
  {
    var d := b - a;
    ScaledStepWithin(u, d);
    a + u * d
  }

  /** u * d lies in [0, d] for u in the unit interval and d >= 0. */
  lemma ScaledStepWithin(u: real, d: real)
    requires IsUnit(u) && d >= 0.0
    ensures 0.0 <= u * d <= d
  {
    assert u * d <= 1.0 * d by {
      assert (1.0 - u) * d >= 0.0;
    }
  }

  /** n / d lies in [0, 1] when 0 <= n <= d. */
  lemma QuotientWithin(n: real, d: real)
    requires 0.0 <= n <= d && d > 0.0
    ensures 0.0 <= n / d <= 1.0
  {
    var q := n / d;
    assert q * d == n;
    if q > 1.0 {
      assert q * d > 1.0 * d by { assert (q - 1.0) * d > 0.0; }
    }
  }

  /** The remap sends its two source bounds to its two target bounds. */
  lemma RemapEndpoints(lo1: real, hi1: real, lo2: real, hi2: real)
    requires lo1 != hi1
    ensures Remap(lo1, lo1, hi1, lo2, hi2) == lo2
    ensures Remap(hi1, lo1, hi1, lo2, hi2) == hi2
  {
  }

  /**
   * Remapping into [lo2, hi2] and back with the inverse bounds returns the
   * original value: every remap with distinct bounds is invertible.
   */
  lemma RemapRoundTrip(v: real, lo1: real, hi1: real, lo2: real, hi2: real)
    requires lo1 != hi1 && lo2 != hi2
    ensures Remap(Remap(v, lo1, hi1, lo2, hi2), lo2, hi2, lo1, hi1) == v
  {
    var t := (v - lo1) / (hi1 - lo1);
    var w := Remap(v, lo1, hi1, lo2, hi2);
    assert w == lo2 + t * (hi2 - lo2);
    assert (w - lo2) / (hi2 - lo2) == t;
    assert t * (hi1 - lo1) == v - lo1;
  }

  /** A value between the source bounds is sent between the target bounds. */
  lemma RemapWithin(v: real, lo1: real, hi1: real, lo2: real, hi2: real)
    requires lo1 != hi1 && Between(v, lo1, hi1)
    ensures Between(Remap(v, lo1, hi1, lo2, hi2), lo2, hi2)
  {
    var t := (v - lo1) / (hi1 - lo1);
    if lo1 < hi1 {
      QuotientWithin(v - lo1, hi1 - lo1);
    } else {
      QuotientWithin(lo1 - v, lo1 - hi1);
      assert t == (lo1 - v) / (lo1 - hi1);
    }
    var d := hi2 - lo2;
    var s := t * d;
    assert Remap(v, lo1, hi1, lo2, hi2) == lo2 + s;
    if d >= 0.0 {
      ScaledStepWithin(t, d);
    } else {
      ScaledStepWithin(t, -d);
      assert t * -d == -s;
    }
  }
}
