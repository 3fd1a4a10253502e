/** `getRandomInt`: a random integer between two bounds, with the uniform
    sample in [0, 1) that `Math.random` would draw passed in as `sample`. */
module RandomInt {
  import opened Common

  predicate IsSample(sample: real) { 0.0 <= sample < 1.0 }

  function GetRandomInt(min: real, max: real, sample: real): (r: real)
    ensures (r - Min(min, max)).Floor as real == r - Min(min, max)
  {
    var lower := Min(min, max);
    var upper := Max(min, max);
    FloorOfProduct(sample, upper - lower + 1.0) as real + lower
  }

  /** A sample in [0, 1) scaled by a positive span lies in [0, span). */
  lemma ScaledSample(sample: real, span: real)
    requires IsSample(sample) && span > 0.0
    ensures 0.0 <= sample * span < span
  {
    assert span - sample * span == (1.0 - sample) * span;
  }

  /** With integer bounds and a sample in [0, 1), the result lies between the
      smaller and the larger bound, both included. */
  lemma InRange(a: int, b: int, sample: real)
    requires IsSample(sample)
    ensures Min(a as real, b as real) <= GetRandomInt(a as real, b as real, sample) <= Max(a as real, b as real)
    ensures GetRandomInt(a as real, b as real, sample).Floor as real == GetRandomInt(a as real, b as real, sample)
  {
    var lower, upper := Min(a as real, b as real), Max(a as real, b as real);
    var n: int := if a <= b then b - a else a - b;
    assert upper - lower == n as real;
    var span := n as real + 1.0;
    ScaledSample(sample, span);
    var f := FloorOfProduct(sample, span);
    assert 0 <= f <= n;
    var low: int := if a <= b then a else b;
    assert lower == low as real;
    assert GetRandomInt(a as real, b as real, sample) == (f + low) as real;
  }

  /** The order of the two bounds does not matter. */
  lemma Symmetric(a: real, b: real, sample: real)
    ensures GetRandomInt(a, b, sample) == GetRandomInt(b, a, sample)
  {
    assert Min(a, b) == Min(b, a) && Max(a, b) == Max(b, a);
  }

  /** Equal bounds give that bound back. */
  lemma EqualBounds(a: real, sample: real)
    requires IsSample(sample)
    ensures GetRandomInt(a, a, sample) == a
  {
    assert Min(a, a) == a && Max(a, a) == a;
    assert a - a + 1.0 == 1.0;
    assert sample * 1.0 == sample;
  }

  lemma ScaleMonotonic(x: real, y: real, w: real)
    requires x <= y && w >= 0.0
    ensures x * w <= y * w
  {
    assert y * w - x * w == (y - x) * w;
  }

  /** A larger sample never gives a smaller result. */
  lemma MonotonicInSample(a: real, b: real, s1: real, s2: real)
    requires s1 <= s2
    ensures GetRandomInt(a, b, s1) <= GetRandomInt(a, b, s2)
  {
    var span := Max(a, b) - Min(a, b) + 1.0;
    ScaleMonotonic(s1, s2, span);
    var f1, f2 := FloorOfProduct(s1, span), FloorOfProduct(s2, span);
    assert f1 <= f2;
  }
}
