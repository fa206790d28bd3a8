/**
 * The Chladni-plate field: a closed-form standing wave whose magnitude sets
 * how far a particle may wander. The trigonometric evaluation is left to the
 * caller: `sin` is p5's sine, passed in as an uninterpreted real function.
 */
module Field {
  import opened P5Math

  /** The sketch's own approximation of pi. */
  const Pi: real := 3.1415926535

  /** The amplitudes `a` and `b` of the two wave terms. */
  const WaveA: real := 1.0
  const WaveB: real := 1.0

  /** `chladni(x, y, a, b, m, n)`. */
  function Chladni(sin: real -> real, x: real, y: real, a: real, b: real, m: real, n: real): real
  {
    a * sin(Pi * n * x) * sin(Pi * m * y) + b * sin(Pi * m * x) * sin(Pi * n * y)
  }

  /** A sine bounded by one in magnitude, as p5's is. */
  ghost predicate UnitSine(sin: real -> real) {
    forall t :: -1.0 <= sin(t) <= 1.0
  }

  /** |c * s1 * s2| <= |c| when s1 and s2 lie in [-1, 1]. */
  lemma WeightedProductBounded(c: real, s1: real, s2: real)
    requires -1.0 <= s1 <= 1.0 && -1.0 <= s2 <= 1.0
    ensures -Abs(c) <= c * s1 * s2 <= Abs(c)
  {
    var p := s1 * s2;
    assert -1.0 <= p <= 1.0 by {
      var u1 := Abs(s1);
      var u2 := Abs(s2);
      ScaledStepWithin(u1, u2);
      assert p == u1 * u2 || p == -(u1 * u2);
    }
    assert c * s1 * s2 == c * p;
    var m := Abs(c);
    var q := if p >= 0.0 then p else -p;
    ScaledStepWithin(q, m);
    var r := q * m;
    assert 0.0 <= r <= m;
    assert c * p == r || c * p == -r;
  }

  /**
   * With a sine bounded by one, the field is bounded by |a| + |b|; for the
   * sketch's a = b = 1 it stays in [-2, 2].
   */
  lemma ChladniBounded(sin: real -> real, x: real, y: real, a: real, b: real, m: real, n: real)
    requires UnitSine(sin)
    ensures -(Abs(a) + Abs(b)) <= Chladni(sin, x, y, a, b, m, n) <= Abs(a) + Abs(b)
  {
    WeightedProductBounded(a, sin(Pi * n * x), sin(Pi * m * y));
    WeightedProductBounded(b, sin(Pi * m * x), sin(Pi * n * y));
  }
}
