/** The numeric helpers of src/utils/mathUtils.js: `clamp`, `lerp` and the
    componentwise vector `add` and `subtract`. */
module MathUtils {

  /** A point or vector `{ x, y, z }`. */
  datatype Vec3 = Vec3(x: real, y: real, z: real)

  function Min(a: real, b: real): real { if a <= b then a else b }
  function Max(a: real, b: real): real { if a >= b then a else b }

  /** `Math.min(Math.max(value, min), max)`: the lower bound is applied
      first, so with crossed bounds the upper one wins. */
  function Clamp(value: real, min: real, max: real): (r: real)
    ensures min <= max ==> min <= r <= max
    ensures min <= value <= max ==> r == value
    ensures value < min ==> r == Min(min, max)
    ensures value > max ==> r == max
    ensures min > max ==> r == max
  {
    Min(Max(value, min), max)
  }

  /** Clamping twice is clamping once (whatever the bounds). */
  lemma ClampIdempotent(value: real, min: real, max: real)
    ensures Clamp(Clamp(value, min, max), min, max) == Clamp(value, min, max)
  {
  }

  /** Clamping is monotone in the clamped value. */
  lemma ClampMonotone(a: real, b: real, min: real, max: real)
    requires a <= b
    ensures Clamp(a, min, max) <= Clamp(b, min, max)
  {
  }

  /** `start + (end - start) * factor`. */
  function Lerp(start: real, end: real, factor: real): (r: real)
    ensures factor == 0.0 ==> r == start
    ensures factor == 1.0 ==> r == end
  {
    start + (end - start) * factor
  }

  /** For a factor in [0, 1] the interpolated value lies between the two
      ends, in whichever order they come. */
  lemma LerpBetween(start: real, end: real, factor: real)
    requires 0.0 <= factor <= 1.0
    ensures Min(start, end) <= Lerp(start, end, factor) <= Max(start, end)
  {
    var d := end - start;
    ScaleBetween(d, factor);
    assert Lerp(start, end, factor) == start + d * factor;
  }

  /** Scaling a difference by a factor in [0, 1] keeps it between 0 and the
      difference. */
  lemma ScaleBetween(d: real, f: real)
    requires 0.0 <= f <= 1.0
    ensures d >= 0.0 ==> 0.0 <= d * f <= d
    ensures d < 0.0 ==> d <= d * f <= 0.0
  {
    var g := 1.0 - f;
    assert d * f + d * g == d;
    if d >= 0.0 {
      assert d * f >= 0.0 && d * g >= 0.0;
    } else {
      assert d * f <= 0.0 && d * g <= 0.0;
    }
  }

  /** `vector3.add`: componentwise sum; taking either summand back off
      leaves the other. */
  function Add(a: Vec3, b: Vec3): (r: Vec3)
    ensures Subtract(r, b) == a && Subtract(r, a) == b
  {
    Vec3(a.x + b.x, a.y + b.y, a.z + b.z)
  }

  /** `vector3.subtract`: componentwise difference; it is zero exactly
      when the two vectors are equal, and swapping them negates it. */
  function Subtract(a: Vec3, b: Vec3): (r: Vec3)
    ensures r == Vec3(0.0, 0.0, 0.0) <==> a == b
    ensures Vec3(-r.x, -r.y, -r.z) == Vec3(b.x - a.x, b.y - a.y, b.z - a.z)
  {
    Vec3(a.x - b.x, a.y - b.y, a.z - b.z)
  }

  /** Over the reals subtracting what was added gives back the start, and
      adding what was subtracted does too. */
  lemma AddSubtractInverse(a: Vec3, b: Vec3)
    ensures Subtract(Add(a, b), b) == a
    ensures Add(Subtract(a, b), b) == a
  {
  }

  /** Products of a positive and a non-negative factor, for the proofs over
      reals in the renderer and the layout. */
  lemma MulNonneg(x: real, y: real)
    requires x >= 0.0 && y >= 0.0
    ensures x * y >= 0.0
  {
  }

  lemma MulPositive(x: real, y: real)
    requires x > 0.0 && y > 0.0
    ensures x * y > 0.0
  {
  }
}
