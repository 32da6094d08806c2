/**
 * The point-cloud shaders. The vertex shader eases the mix uniform with a
 * cubic ease-in-out, interpolates each point between its scatter and tree
 * positions, adds a wind offset whose strength falls as the tree forms, and
 * computes a flickering alpha. The fragment shader cuts each point sprite to
 * a disc, fades it toward its rim and tints it between emerald and gold.
 *
 * GLSL's sin, cos, sqrt (inside distance) and pow are the transcendental
 * functions of Numerics; pow(x, 3.0) is written out as a cube.
 */
module FoliageShaders {
  import opened Numerics

  datatype Option<T> = None | Some(value: T)

  datatype Vec2 = Vec2(x: real, y: real)

  /** An output colour with its alpha. */
  datatype Rgba = Rgba(color: Vec3, alpha: real)

  // ---------------------------------------------------------------------------
  // Easing

  /** pow(x, 3.0), for the non-negative bases the easing gives it on [0, 1]. */
  function Cube(x: real): real { x * x * x }

  /** The cubic ease-in-out: 4t^3 below one half, 1 - (2 - 2t)^3 / 2 from one half on. */
  function CubicInOut(t: real): real
  {
    if t < 0.5 then 4.0 * Cube(t) else 1.0 - Cube(-2.0 * t + 2.0) / 2.0
  }

  /** The cube is monotone on the non-negative reals, strictly so. */
  lemma CubeMonotone(a: real, b: real)
    requires 0.0 <= a <= b
    ensures Cube(a) <= Cube(b)
    ensures a < b ==> Cube(a) < Cube(b)
  {
    var aa, bb := a * a, b * b;
    MulMonotone(a, b, a);
    MulMonotone(a, b, b);
    assert aa <= bb;
    MulNonneg(a, a);
    MulMonotone(aa, bb, a);
    MulMonotone(a, b, bb);
    assert Cube(a) == aa * a && Cube(b) == bb * b;
    if a < b {
      MulPositive(b - a, b);
      MulPositive(b - a, b * b);
      assert bb * a < bb * b;
    }
  }

  /** The easing fixes 0, 1/2 and 1, and its two branches meet at 1/2. */
  lemma CubicInOutEndpoints()
    ensures CubicInOut(0.0) == 0.0 && CubicInOut(0.5) == 0.5 && CubicInOut(1.0) == 1.0
    ensures 4.0 * Cube(0.5) == 1.0 - Cube(-2.0 * 0.5 + 2.0) / 2.0
  {
    assert Cube(0.0) == 0.0;
    assert Cube(0.5) == 0.125;
    assert Cube(1.0) == 1.0;
    assert -2.0 * 0.5 + 2.0 == 1.0;
    assert -2.0 * 1.0 + 2.0 == 0.0;
  }

  /**
   * The easing maps [0, 1] into [0, 1], the first half below one half and
   * the second half from one half on.
   */
  lemma CubicInOutRange(t: real)
    requires 0.0 <= t <= 1.0
    ensures 0.0 <= CubicInOut(t) <= 1.0
    ensures t < 0.5 <==> CubicInOut(t) < 0.5
  {
    if t < 0.5 {
      CubeMonotone(0.0, t);
      CubeMonotone(t, 0.5);
    } else {
      var x := -2.0 * t + 2.0;
      CubeMonotone(0.0, x);
      CubeMonotone(x, 1.0);
    }
  }

  /** The easing is non-decreasing on [0, 1]. */
  lemma CubicInOutMonotone(s: real, t: real)
    requires 0.0 <= s <= t <= 1.0
    ensures CubicInOut(s) <= CubicInOut(t)
  {
    CubicInOutRange(s);
    CubicInOutRange(t);
    if t < 0.5 {
      CubeMonotone(s, t);
    } else if 0.5 <= s {
      CubeMonotone(-2.0 * t + 2.0, -2.0 * s + 2.0);
    }
  }

  /** The easing is point-symmetric about (1/2, 1/2): easing 1 - t gives 1 minus the easing of t. */
  lemma CubicInOutSymmetric(t: real)
    ensures CubicInOut(1.0 - t) == 1.0 - CubicInOut(t)
  {
    if t < 0.5 {
      assert CubicInOut(1.0 - t) == 1.0 - Cube(2.0 * t) / 2.0;
      DoubleCube(t);
    } else if t > 0.5 {
      assert 1.0 - CubicInOut(t) == Cube(2.0 * (1.0 - t)) / 2.0;
      DoubleCube(1.0 - t);
    }
  }

  lemma DoubleCube(x: real)
    ensures Cube(2.0 * x) == 8.0 * Cube(x)
  {
  }

  // ---------------------------------------------------------------------------
  // Vertex shader

  /** GLSL mix(x, y, a) = x * (1 - a) + y * a. */
  function Mix(x: real, y: real, a: real): real
  {
    x * (1.0 - a) + y * a
  }

  /** GLSL's mix is THREE's lerp. */
  lemma MixIsLerp(x: real, y: real, a: real)
    ensures Mix(x, y, a) == Lerp(x, y, a)
  {
  }

  function MixVec(u: Vec3, v: Vec3, a: real): Vec3
  {
    Vec3(Mix(u.x, v.x, a), Mix(u.y, v.y, a), Mix(u.z, v.z, a))
  }

  /** For a weight in [0, 1], every component of the mix lies between the two inputs' components. */
  lemma MixVecBetween(u: Vec3, v: Vec3, a: real)
    requires 0.0 <= a <= 1.0
    ensures var w := MixVec(u, v, a); Between(w.x, u.x, v.x) && Between(w.y, u.y, v.y) && Between(w.z, u.z, v.z)
  {
    MixIsLerp(u.x, v.x, a);
    MixIsLerp(u.y, v.y, a);
    MixIsLerp(u.z, v.z, a);
    LerpBetween(u.x, v.x, a);
    LerpBetween(u.y, v.y, a);
    LerpBetween(u.z, v.z, a);
  }

  /** The point's position before the wind: its scatter and tree positions mixed by the eased uMix. */
  function MixedPosition(scatterPos: Vec3, treePos: Vec3, uMix: real): Vec3
  {
    MixVec(scatterPos, treePos, CubicInOut(uMix))
  }

  /**
   * At uMix = 0 the point is at its scatter position and at uMix = 1 at its
   * tree position; in between each coordinate lies between the two.
   */
  lemma MixedPositionPath(scatterPos: Vec3, treePos: Vec3, uMix: real)
    ensures MixedPosition(scatterPos, treePos, 0.0) == scatterPos
    ensures MixedPosition(scatterPos, treePos, 1.0) == treePos
    ensures 0.0 <= uMix <= 1.0 ==>
      var p := MixedPosition(scatterPos, treePos, uMix);
      Between(p.x, scatterPos.x, treePos.x) && Between(p.y, scatterPos.y, treePos.y) && Between(p.z, scatterPos.z, treePos.z)
  {
    CubicInOutEndpoints();
    if 0.0 <= uMix <= 1.0 {
      CubicInOutRange(uMix);
      MixVecBetween(scatterPos, treePos, CubicInOut(uMix));
    }
  }

  /** The wind strength at eased mix t: 0.2 when scattered, 0.05 in the tree. */
  function MovementIntensity(t: real): real
  {
    Mix(0.2, 0.05, t)
  }

  /** The wind strength lies in [0.05, 0.2] on [0, 1] and never grows as the tree forms. */
  lemma MovementIntensityRange(s: real, t: real)
    ensures 0.0 <= t <= 1.0 ==> 0.05 <= MovementIntensity(t) <= 0.2
    ensures s <= t ==> MovementIntensity(t) <= MovementIntensity(s)
  {
    assert MovementIntensity(t) == 0.2 - 0.15 * t;
    assert MovementIntensity(s) == 0.2 - 0.15 * s;
  }

  /**
   * The wind offsets, applied in the shader's order: x moves with a sine of
   * time and y, then z with a cosine of time and the moved x, then y with a
   * sine of time and the point's random value at half strength.
   */
  function Wind(pos: Vec3, uTime: real, aRandom: real, intensity: real, m: Transcendentals): Vec3
  {
    var x := pos.x + m.sin(uTime * 1.5 + pos.y * 2.0) * intensity;
    var z := pos.z + m.cos(uTime * 1.2 + x * 2.0) * intensity;
    var y := pos.y + m.sin(uTime * 2.0 + aRandom * 10.0) * intensity * 0.5;
    Vec3(x, y, z)
  }

  /** The wind moves x and z by at most its strength and y by at most half of it. */
  lemma WindBounded(pos: Vec3, uTime: real, aRandom: real, intensity: real, m: Transcendentals)
    requires WavesBounded(m) && 0.0 <= intensity
    ensures var w := Wind(pos, uTime, aRandom, intensity, m);
      Within(w.x, pos.x, intensity) && Within(w.y, pos.y, intensity * 0.5) && Within(w.z, pos.z, intensity)
  {
    var x := pos.x + m.sin(uTime * 1.5 + pos.y * 2.0) * intensity;
    WaveBounded(pos.x, m.sin(uTime * 1.5 + pos.y * 2.0), intensity);
    WaveBounded(pos.z, m.cos(uTime * 1.2 + x * 2.0), intensity);
    var s := m.sin(uTime * 2.0 + aRandom * 10.0);
    WaveBounded(pos.y, s, intensity * 0.5);
    assert s * intensity * 0.5 == s * (intensity * 0.5);
  }

  /** The shader's displaced position: the mixed position moved by the wind at the eased mix's strength. */
  function VertexPosition(scatterPos: Vec3, treePos: Vec3, aRandom: real, uTime: real, uMix: real, m: Transcendentals): Vec3
  {
    var t := CubicInOut(uMix);
    Wind(MixVec(scatterPos, treePos, t), uTime, aRandom, MovementIntensity(t), m)
  }

  /**
   * For uMix in [0, 1], a point is drawn within the wind strength (at most
   * 0.2) of its mixed position in x and z, and within half of it in y.
   */
  lemma VertexNearPath(scatterPos: Vec3, treePos: Vec3, aRandom: real, uTime: real, uMix: real, m: Transcendentals)
    requires WavesBounded(m) && 0.0 <= uMix <= 1.0
    ensures var t := CubicInOut(uMix);
      var p := VertexPosition(scatterPos, treePos, aRandom, uTime, uMix, m);
      var base := MixedPosition(scatterPos, treePos, uMix);
      var a := MovementIntensity(t);
      && 0.05 <= a <= 0.2
      && Within(p.x, base.x, a) && Within(p.y, base.y, a * 0.5) && Within(p.z, base.z, a)
  {
    var t := CubicInOut(uMix);
    CubicInOutRange(uMix);
    MovementIntensityRange(t, t);
    WindBounded(MixVec(scatterPos, treePos, t), uTime, aRandom, MovementIntensity(t), m);
  }

  /** The point's alpha: 0.6 plus a flicker of amplitude 0.4 at the point's own phase. */
  function VAlpha(uTime: real, aRandom: real, m: Transcendentals): real
  {
    0.6 + 0.4 * m.sin(uTime + aRandom * 10.0)
  }

  /** The alpha stays within [0.2, 1]. */
  lemma VAlphaRange(uTime: real, aRandom: real, m: Transcendentals)
    requires WavesBounded(m)
    ensures 0.2 <= VAlpha(uTime, aRandom, m) <= 1.0
  {
    var s := m.sin(uTime + aRandom * 10.0);
    assert -1.0 <= s <= 1.0;
  }

  // ---------------------------------------------------------------------------
  // Fragment shader

  /** GLSL distance(p, q): the square root of the squared Euclidean distance. */
  function Distance(p: Vec2, q: Vec2, m: Transcendentals): real
  {
    m.sqrt((p.x - q.x) * (p.x - q.x) + (p.y - q.y) * (p.y - q.y))
  }

  /** The glow at distance r from the sprite's centre: pow(1 - 2r, 1.5). */
  function Glow(r: real, m: Transcendentals): real
  {
    m.pow(1.0 - r * 2.0, 1.5)
  }

  /** The height-driven colour factor (sin(y / 2) + 1) / 2. */
  function MixFactor(y: real, m: Transcendentals): real
  {
    (m.sin(y * 0.5) + 1.0) * 0.5
  }

  /**
   * One fragment of a point sprite at gl_PointCoord `pointCoord`: discarded
   * (None) outside the disc of radius 1/2 around the sprite's centre,
   * otherwise emerald tinted toward gold by at most 0.3, with the point's
   * alpha times the glow.
   */
  function Fragment(pointCoord: Vec2, vAlpha: real, vPos: Vec3, color1: Vec3, color2: Vec3, m: Transcendentals): Option<Rgba>
  {
    var r := Distance(pointCoord, Vec2(0.5, 0.5), m);
    if r > 0.5 then None
    else Some(Rgba(MixVec(color1, color2, MixFactor(vPos.y, m) * 0.3), vAlpha * Glow(r, m)))
  }

  /** A fragment is discarded exactly when it lies farther than 1/2 from the sprite's centre. */
  lemma FragmentDiscard(pointCoord: Vec2, vAlpha: real, vPos: Vec3, color1: Vec3, color2: Vec3, m: Transcendentals)
    ensures Fragment(pointCoord, vAlpha, vPos, color1, color2, m) == None <==> Distance(pointCoord, Vec2(0.5, 0.5), m) > 0.5
  {
  }

  /**
   * A kept fragment has glow base 1 - 2r in [0, 1] and glow in [0, 1], so its
   * alpha lies between 0 and the point's alpha.
   */
  lemma FragmentKeptAlpha(pointCoord: Vec2, vAlpha: real, vPos: Vec3, color1: Vec3, color2: Vec3, m: Transcendentals)
    requires RootsNonneg(m) && PowersInUnit(m) && 0.0 <= vAlpha
    ensures var r := Distance(pointCoord, Vec2(0.5, 0.5), m);
      var f := Fragment(pointCoord, vAlpha, vPos, color1, color2, m);
      f.Some? ==>
        && 0.0 <= 1.0 - r * 2.0 <= 1.0
        && 0.0 <= Glow(r, m) <= 1.0
        && 0.0 <= f.value.alpha <= vAlpha
  {
    var r := Distance(pointCoord, Vec2(0.5, 0.5), m);
    if r <= 0.5 {
      DistanceNonneg(pointCoord, Vec2(0.5, 0.5), m);
      var g := Glow(r, m);
      assert 0.0 <= g <= 1.0;
      AlphaScaled(vAlpha, g);
      assert Fragment(pointCoord, vAlpha, vPos, color1, color2, m).value.alpha == vAlpha * g;
    }
  }

  lemma DistanceNonneg(p: Vec2, q: Vec2, m: Transcendentals)
    requires RootsNonneg(m)
    ensures 0.0 <= Distance(p, q, m)
  {
    var dx, dy := p.x - q.x, p.y - q.y;
    SquareNonneg(dx);
    SquareNonneg(dy);
  }

  lemma AlphaScaled(a: real, g: real)
    requires 0.0 <= a && 0.0 <= g <= 1.0
    ensures 0.0 <= a * g <= a
  {
    MulNonneg(a, g);
    MulMonotone(g, 1.0, a);
  }

  /**
   * A kept fragment's colour is emerald mixed toward gold with weight
   * mixFactor * 0.3, where mixFactor lies in [0, 1]; so the weight lies in
   * [0, 0.3] and each colour component lies between emerald's and gold's.
   */
  lemma FragmentKeptColor(pointCoord: Vec2, vAlpha: real, vPos: Vec3, color1: Vec3, color2: Vec3, m: Transcendentals)
    requires WavesBounded(m)
    ensures var f := Fragment(pointCoord, vAlpha, vPos, color1, color2, m);
      var weight := MixFactor(vPos.y, m) * 0.3;
      f.Some? ==>
        && 0.0 <= MixFactor(vPos.y, m) <= 1.0
        && 0.0 <= weight <= 0.3
        && f.value.color == MixVec(color1, color2, weight)
        && Between(f.value.color.x, color1.x, color2.x)
        && Between(f.value.color.y, color1.y, color2.y)
        && Between(f.value.color.z, color1.z, color2.z)
  {
    var s := m.sin(vPos.y * 0.5);
    assert -1.0 <= s <= 1.0;
    MixVecBetween(color1, color2, MixFactor(vPos.y, m) * 0.3);
  }
}
