/**
 * The numeric vocabulary shared by the generators, the transition drivers and
 * the shaders: three-component vectors, the linear interpolations of
 * THREE.MathUtils and THREE.Vector3, the random source, and the transcendental
 * functions of JavaScript's Math and of GLSL.
 *
 * Numbers are idealised as `real`; the transcendental functions are carried as
 * function values about which only their range facts are known.
 */
module Numerics {

  /** JavaScript's Math.PI. */
  const PI: real := 3.141592653589793

  datatype Vec3 = Vec3(x: real, y: real, z: real)

  function Min(a: real, b: real): real { if a <= b then a else b }

  function Max(a: real, b: real): real { if a <= b then b else a }

  /** `t` lies between `a` and `b`, whichever way round they are. */
  predicate Between(t: real, a: real, b: real) { Min(a, b) <= t <= Max(a, b) }

  /** THREE.MathUtils.lerp(x, y, t), defined as (1 - t) * x + t * y. */
  function Lerp(x: real, y: real, t: real): real
  {
    (1.0 - t) * x + t * y
  }

  /** A lerp is a convex combination: for t in [0, 1] it lies between its two ends, which it meets at t = 0 and t = 1. */
  lemma LerpBetween(x: real, y: real, t: real)
    requires 0.0 <= t <= 1.0
    ensures Between(Lerp(x, y, t), x, y)
    ensures t == 0.0 ==> Lerp(x, y, t) == x
    ensures t == 1.0 ==> Lerp(x, y, t) == y
  {
    assert Lerp(x, y, t) == x + t * (y - x);
    assert Lerp(x, y, t) == y - (1.0 - t) * (y - x);
    if x <= y {
      MulNonneg(t, y - x);
      MulNonneg(1.0 - t, y - x);
    } else {
      MulNonneg(t, x - y);
      MulNonneg(1.0 - t, x - y);
    }
  }

  lemma MulNonneg(a: real, b: real)
    requires 0.0 <= a && 0.0 <= b
    ensures 0.0 <= a * b
  {
  }

  lemma SquareNonneg(x: real)
    ensures 0.0 <= x * x
  {
    if x < 0.0 {
      MulNonneg(-x, -x);
    }
  }

  lemma MulPositive(a: real, b: real)
    requires 0.0 < a && 0.0 < b
    ensures 0.0 < a * b
  {
  }

  lemma MulMonotone(a: real, b: real, c: real)
    requires a <= b && 0.0 <= c
    ensures a * c <= b * c
  {
    MulNonneg(b - a, c);
  }

  /** THREE.Vector3.lerpVectors(v1, v2, alpha): v1 + (v2 - v1) * alpha, component-wise. */
  function LerpVectors(v1: Vec3, v2: Vec3, alpha: real): (v: Vec3)
    ensures alpha == 0.0 ==> v == v1
    ensures alpha == 1.0 ==> v == v2
  {
    Vec3(v1.x + (v2.x - v1.x) * alpha, v1.y + (v2.y - v1.y) * alpha, v1.z + (v2.z - v1.z) * alpha)
  }

  /** `v` lies within `r` of `center`. */
  predicate Within(v: real, center: real, r: real)
  {
    center - r <= v <= center + r
  }

  /** A wave of amplitude `a` added to `b` stays within `a` of `b`. */
  lemma WaveBounded(b: real, s: real, a: real)
    requires -1.0 <= s <= 1.0 && 0.0 <= a
    ensures Within(b + s * a, b, a)
  {
    MulMonotone(s, 1.0, a);
    MulMonotone(-1.0, s, a);
  }

  function NormSq(v: Vec3): real { v.x * v.x + v.y * v.y + v.z * v.z }

  /** Math.random() as a stream: `rand(k)` is the value of the k-th call. */
  ghost predicate IsRandomSource(rand: nat -> real)
  {
    forall k :: 0.0 <= rand(k) < 1.0
  }

  /**
   * The transcendental functions the source calls (Math.sin, Math.cos,
   * Math.acos, Math.sqrt, Math.cbrt, Math.pow and their GLSL namesakes).
   */
  datatype Transcendentals = Transcendentals(
    sin: real -> real,
    cos: real -> real,
    acos: real -> real,
    sqrt: real -> real,
    cbrt: real -> real,
    pow: (real, real) -> real)

  /** Sine and cosine take values in [-1, 1]. */
  ghost predicate WavesBounded(m: Transcendentals)
  {
    && (forall x :: -1.0 <= m.sin(x) <= 1.0)
    && (forall x :: -1.0 <= m.cos(x) <= 1.0)
  }

  /** sin(x)^2 + cos(x)^2 = 1. */
  ghost predicate Pythagorean(m: Transcendentals)
  {
    forall x :: m.sin(x) * m.sin(x) + m.cos(x) * m.cos(x) == 1.0
  }

  /** The square and cube roots map [0, 1) into [0, 1). */
  ghost predicate RootsInUnit(m: Transcendentals)
  {
    && (forall w :: 0.0 <= w < 1.0 ==> 0.0 <= m.sqrt(w) < 1.0)
    && (forall w :: 0.0 <= w < 1.0 ==> 0.0 <= m.cbrt(w) < 1.0)
  }

  /** A power of a base in [0, 1] with a positive exponent lies in [0, 1], and is positive for a positive base. */
  ghost predicate PowersInUnit(m: Transcendentals)
  {
    && (forall b, e :: 0.0 <= b <= 1.0 && 0.0 < e ==> 0.0 <= m.pow(b, e) <= 1.0)
    && (forall b, e :: 0.0 < b <= 1.0 ==> 0.0 < m.pow(b, e))
  }

  /** A square root of a non-negative number is non-negative. */
  ghost predicate RootsNonneg(m: Transcendentals)
  {
    forall x :: 0.0 <= x ==> 0.0 <= m.sqrt(x)
  }
}
