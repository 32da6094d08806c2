/**
 * The foliage point cloud: 20000 particles whose scatter positions, tree
 * positions, sizes and random phases are generated once into flat buffers,
 * three numbers per particle for positions and one for the scalars. Each
 * frame the component writes the elapsed time into its material's uniforms
 * and moves the mix uniform toward the mode's target.
 */
module Foliage {
  import opened Numerics
  import opened Types
  import opened Sampling
  import opened Transition

  const COUNT: nat := 20000
  const SCATTER_RADIUS: real := 35.0
  const TREE_HEIGHT: real := 20.0
  const TREE_RADIUS_BASE: real := 9.0
  /** The mix uniform moves at rate 1.5 per second. */
  const MIX_RATE: real := 1.5
  /** Each particle makes eight calls of Math.random(). */
  const DRAWS_PER_PARTICLE: nat := 8
  /** Deep emerald and bright gold. */
  const COLOR1: Color := "#022D18"
  const COLOR2: Color := "#FFD700"

  /** One particle's attributes, as the buffers hold them. */
  datatype Particle = Particle(scatterPos: Vec3, treePos: Vec3, size: real, random: real)

  // ---------------------------------------------------------------------------
  // Per-particle formulas

  /** The scatter distance, given cbrt of a draw: a ball of radius 35. */
  function ScatterRadius(cbrtW: real): (r: real)
    requires 0.0 <= cbrtW < 1.0
    ensures 0.0 <= r < SCATTER_RADIUS
  {
    cbrtW * SCATTER_RADIUS
  }

  /** The scatter position drawn from wu, wv (direction) and wr (distance). */
  function ScatterPosition(wu: real, wv: real, wr: real, m: Transcendentals): Vec3
    requires RootsInUnit(m) && 0.0 <= wr < 1.0
  {
    SpherePoint(ScatterRadius(m.cbrt(wr)), wu, wv, m)
  }

  /** The cone's radius at a normalised height: pow(hNorm, 1.2) * 9, which widens the base. */
  function RadiusAtHeight(hNorm: real, m: Transcendentals): real
  {
    m.pow(hNorm, 1.2) * TREE_RADIUS_BASE
  }

  /** The radial factor sqrt(w) * 0.2 + 0.8, given sqrt of a draw: particles crowd the cone's surface. */
  function RadialFactor(sqrtW: real): (f: real)
    requires 0.0 <= sqrtW < 1.0
    ensures 0.8 <= f < 1.0
  {
    sqrtW * 0.2 + 0.8
  }

  /** The particle's angle around the axis: a turn of 0.1 per index plus a drawn full turn. */
  function Angle(i: nat, w: real): real
  {
    i as real * 0.1 + w * PI * 2.0
  }

  /** The tree position of particle i drawn from wy (height), wAngle (angle) and ws (depth). */
  function TreePosition(i: nat, wy: real, wAngle: real, ws: real, m: Transcendentals): Vec3
    requires RootsInUnit(m) && 0.0 <= wy < 1.0 && 0.0 <= ws < 1.0
  {
    var radiusAtH := RadiusAtHeight(DrawnHeightNorm(wy, TREE_HEIGHT), m);
    CirclePoint(Angle(i, wAngle), RadialFactor(m.sqrt(ws)) * radiusAtH, ConeY(wy, TREE_HEIGHT), m)
  }

  /** The point size, drawn from [0.5, 2.5). */
  function Size(w: real): (s: real)
    requires 0.0 <= w < 1.0
    ensures 0.5 <= s < 2.5
  {
    w * 2.0 + 0.5
  }

  /** Particle i of the generator, made from the draws 8 * i .. 8 * i + 7 of the random source. */
  function MakeParticle(i: nat, rand: nat -> real, m: Transcendentals): Particle
    requires IsRandomSource(rand) && RootsInUnit(m)
  {
    var b := DRAWS_PER_PARTICLE * i;
    Particle(
      ScatterPosition(rand(b), rand(b + 1), rand(b + 2), m),
      TreePosition(i, rand(b + 3), rand(b + 4), rand(b + 5), m),
      Size(rand(b + 6)),
      rand(b + 7))
  }

  /** A scattered particle sits at a distance in [0, 35) from the origin. */
  lemma ScatterPlacement(wu: real, wv: real, wr: real, m: Transcendentals)
    requires RootsInUnit(m) && Pythagorean(m) && 0.0 <= wr < 1.0
    ensures var rScatter := ScatterRadius(m.cbrt(wr));
      && 0.0 <= rScatter < SCATTER_RADIUS
      && NormSq(ScatterPosition(wu, wv, wr, m)) == rScatter * rScatter
  {
    SpherePointNorm(ScatterRadius(m.cbrt(wr)), wu, wv, m);
  }

  /**
   * A particle on the tree sits at a height y in [-10, 10) whose normalised
   * height lies in (0, 1]; the cone's radius there lies in (0, 9], and the
   * particle's distance from the axis lies between 0.8 times that radius
   * and the radius itself.
   */
  lemma TreePlacement(i: nat, wy: real, wAngle: real, ws: real, m: Transcendentals)
    requires RootsInUnit(m) && Pythagorean(m) && PowersInUnit(m) && 0.0 <= wy < 1.0 && 0.0 <= ws < 1.0
    ensures var p := TreePosition(i, wy, wAngle, ws, m);
      var hNorm := DrawnHeightNorm(wy, TREE_HEIGHT);
      var radiusAtH := RadiusAtHeight(hNorm, m);
      var rTree := RadialFactor(m.sqrt(ws)) * radiusAtH;
      && -10.0 <= p.y < 10.0
      && hNorm == HeightNorm(p.y, TREE_HEIGHT) && 0.0 < hNorm <= 1.0
      && 0.0 < radiusAtH <= TREE_RADIUS_BASE
      && 0.8 * radiusAtH <= rTree < radiusAtH
      && p.x * p.x + p.z * p.z == rTree * rTree
  {
    var hNorm := DrawnHeightNorm(wy, TREE_HEIGHT);
    var radiusAtH := RadiusAtHeight(hNorm, m);
    assert 0.0 < m.pow(hNorm, 1.2) <= 1.0;
    var f := RadialFactor(m.sqrt(ws));
    RadialBounds(f, radiusAtH);
    CirclePointRadius(Angle(i, wAngle), f * radiusAtH, ConeY(wy, TREE_HEIGHT), m);
  }

  lemma RadialBounds(f: real, radius: real)
    requires 0.8 <= f < 1.0 && 0.0 < radius
    ensures 0.8 * radius <= f * radius < radius
  {
    MulMonotone(0.8, f, radius);
    MulPositive(1.0 - f, radius);
  }

  /** A particle's size lies in [0.5, 2.5) and its random phase is its last draw, in [0, 1). */
  lemma ParticleAttributes(i: nat, rand: nat -> real, m: Transcendentals)
    requires IsRandomSource(rand) && RootsInUnit(m)
    ensures var q := MakeParticle(i, rand, m);
      && 0.5 <= q.size < 2.5
      && q.random == rand(DRAWS_PER_PARTICLE * i + 7)
      && 0.0 <= q.random < 1.0
  {
  }

  // ---------------------------------------------------------------------------
  // The attribute buffers

  /** A buffer that holds only zeros, as a new Float32Array does. */
  ghost predicate Zeroed(buffer: array<real>)
    reads buffer
  {
    forall k :: 0 <= k < buffer.Length ==> buffer[k] == 0.0
  }

  /** new Float32Array(length): a fresh buffer of zeros. */
  method NewFloat32Array(length: nat) returns (buffer: array<real>)
    ensures fresh(buffer) && buffer.Length == length && Zeroed(buffer)
    ensures HoldsVectors(buffer, []) && HoldsScalars(buffer, [])
  {
    buffer := new real[length](_ => 0.0);
  }

  /** A stride-3 buffer holds the vectors `vs` at slots 3i, 3i + 1, 3i + 2 and zeros after them. */
  ghost predicate HoldsVectors(buffer: array<real>, vs: seq<Vec3>)
    reads buffer
  {
    && 3 * |vs| <= buffer.Length
    && (forall i :: 0 <= i < |vs| ==> buffer[3 * i] == vs[i].x && buffer[3 * i + 1] == vs[i].y && buffer[3 * i + 2] == vs[i].z)
    && (forall k :: 3 * |vs| <= k < buffer.Length ==> buffer[k] == 0.0)
  }

  /** A stride-1 buffer holds the values `xs` in its first slots and zeros after them. */
  ghost predicate HoldsScalars(buffer: array<real>, xs: seq<real>)
    reads buffer
  {
    && |xs| <= buffer.Length
    && (forall i :: 0 <= i < |xs| ==> buffer[i] == xs[i])
    && (forall k :: |xs| <= k < buffer.Length ==> buffer[k] == 0.0)
  }

  /** Writes vector i at offsets i3, i3 + 1 and i3 + 2 with i3 = 3i, all in bounds. */
  method SetVector(buffer: array<real>, i: nat, v: Vec3, ghost done: seq<Vec3>)
    requires i == |done| && 3 * i + 3 <= buffer.Length
    requires HoldsVectors(buffer, done)
    modifies buffer
    ensures HoldsVectors(buffer, done + [v])
  {
    var i3 := i * 3;
    buffer[i3] := v.x;
    buffer[i3 + 1] := v.y;
    buffer[i3 + 2] := v.z;
  }

  /** Writes value i at slot i. */
  method SetScalar(buffer: array<real>, i: nat, x: real, ghost done: seq<real>)
    requires i == |done| < buffer.Length
    requires HoldsScalars(buffer, done)
    modifies buffer
    ensures HoldsScalars(buffer, done + [x])
  {
    buffer[i] := x;
  }

  /**
   * The state of the generation loop after its first n particles: the
   * position buffer is all zeros, and each other buffer holds the first n
   * particles' values, at stride 3 or 1, and zeros after them.
   */
  ghost predicate Generated(n: nat, rand: nat -> real, m: Transcendentals,
                            p: array<real>, tp: array<real>, sp: array<real>, s: array<real>, r: array<real>,
                            trees: seq<Vec3>, scatters: seq<Vec3>, sizes: seq<real>, randoms: seq<real>)
    reads p, tp, sp, s, r
  {
    && IsRandomSource(rand) && RootsInUnit(m)
    && n <= COUNT
    && p.Length == 3 * COUNT && tp.Length == 3 * COUNT && sp.Length == 3 * COUNT
    && s.Length == COUNT && r.Length == COUNT
    && Zeroed(p)
    && |trees| == n && |scatters| == n && |sizes| == n && |randoms| == n
    && (forall j :: 0 <= j < n ==>
          var q := MakeParticle(j, rand, m);
          trees[j] == q.treePos && scatters[j] == q.scatterPos && sizes[j] == q.size && randoms[j] == q.random)
    && HoldsVectors(tp, trees) && HoldsVectors(sp, scatters)
    && HoldsScalars(s, sizes) && HoldsScalars(r, randoms)
  }

  /** Five buffers that are pairwise different objects, so writing one leaves the others alone. */
  predicate Separate(p: array<real>, tp: array<real>, sp: array<real>, s: array<real>, r: array<real>)
  {
    && p != tp && p != sp && p != s && p != r
    && tp != sp && tp != s && tp != r
    && sp != s && sp != r
    && s != r
  }

  /**
   * The generation pass: five zeroed buffers, three of 3 * COUNT numbers and
   * two of COUNT, then particle i written at offsets 3i .. 3i + 2 of the tree
   * and scatter buffers and at slot i of the size and random buffers. The
   * position buffer is never written.
   */
  method GenerateBuffers(rand: nat -> real, m: Transcendentals)
    returns (p: array<real>, tp: array<real>, sp: array<real>, s: array<real>, r: array<real>)
    requires IsRandomSource(rand) && RootsInUnit(m)
    ensures fresh(p) && fresh(tp) && fresh(sp) && fresh(s) && fresh(r)
    ensures Separate(p, tp, sp, s, r)
    ensures p.Length == 3 * COUNT && tp.Length == 3 * COUNT && sp.Length == 3 * COUNT
    ensures s.Length == COUNT && r.Length == COUNT
    ensures Zeroed(p)
    ensures forall i :: 0 <= i < COUNT ==>
      var q := MakeParticle(i, rand, m);
      && tp[3 * i] == q.treePos.x && tp[3 * i + 1] == q.treePos.y && tp[3 * i + 2] == q.treePos.z
      && sp[3 * i] == q.scatterPos.x && sp[3 * i + 1] == q.scatterPos.y && sp[3 * i + 2] == q.scatterPos.z
      && s[i] == q.size && r[i] == q.random
  {
    p := NewFloat32Array(3 * COUNT);
    tp := NewFloat32Array(3 * COUNT);
    sp := NewFloat32Array(3 * COUNT);
    s := NewFloat32Array(COUNT);
    r := NewFloat32Array(COUNT);
    ghost var trees, scatters, sizes, randoms := [], [], [], [];
    for i := 0 to COUNT
      invariant Generated(i, rand, m, p, tp, sp, s, r, trees, scatters, sizes, randoms)
    {
      trees, scatters, sizes, randoms := WriteParticle(i, rand, m, p, tp, sp, s, r, trees, scatters, sizes, randoms);
    }
  }

  /** The loop body: particle i's attributes go to offsets 3i .. 3i + 2 of tp and sp and to slot i of s and r. */
  method WriteParticle(i: nat, rand: nat -> real, m: Transcendentals,
                       p: array<real>, tp: array<real>, sp: array<real>, s: array<real>, r: array<real>,
                       ghost trees: seq<Vec3>, ghost scatters: seq<Vec3>, ghost sizes: seq<real>, ghost randoms: seq<real>)
    returns (ghost trees': seq<Vec3>, ghost scatters': seq<Vec3>, ghost sizes': seq<real>, ghost randoms': seq<real>)
    requires i < COUNT
    requires Separate(p, tp, sp, s, r)
    requires Generated(i, rand, m, p, tp, sp, s, r, trees, scatters, sizes, randoms)
    modifies tp, sp, s, r
    ensures Generated(i + 1, rand, m, p, tp, sp, s, r, trees', scatters', sizes', randoms')
  {
    var q := MakeParticle(i, rand, m);
    SetVector(sp, i, q.scatterPos, scatters);
    SetVector(tp, i, q.treePos, trees);
    SetScalar(s, i, q.size, sizes);
    SetScalar(r, i, q.random, randoms);
    trees', scatters', sizes', randoms' := trees + [q.treePos], scatters + [q.scatterPos], sizes + [q.size], randoms + [q.random];
  }

  // ---------------------------------------------------------------------------
  // The mix uniform

  /**
   * While a frame is short enough that 1.5 * delta <= 1, the mix step keeps
   * uMix in [0, 1], between its old value and the target; a longer frame
   * carries a uMix that has not reached its target past it.
   */
  lemma MixStep(uMix: real, mode: AppState, delta: real)
    ensures 0.0 <= uMix <= 1.0 && 0.0 <= delta * MIX_RATE <= 1.0 ==>
      var u := Step(uMix, mode, delta * MIX_RATE); 0.0 <= u <= 1.0 && Between(u, uMix, Target(mode))
    ensures 0.0 <= uMix <= 1.0 && uMix != Target(mode) && delta * MIX_RATE > 1.0 ==>
      var u := Step(uMix, mode, delta * MIX_RATE); u < 0.0 || u > 1.0
  {
    StepBounded(uMix, mode, delta * MIX_RATE);
    if 0.0 <= uMix <= 1.0 && uMix != Target(mode) && delta * MIX_RATE > 1.0 {
      LongFrameOvershoots(uMix, mode, delta * MIX_RATE);
    }
  }

  /** The shader uniforms: time, mix and the two colours. */
  class Uniforms {
    var uTime: real
    var uMix: real
    const uColor1: Color
    const uColor2: Color

    constructor ()
      ensures uTime == 0.0 && uMix == 0.0 && uColor1 == COLOR1 && uColor2 == COLOR2
    {
      uTime, uMix := 0.0, 0.0;
      uColor1, uColor2 := COLOR1, COLOR2;
    }
  }

  /** The shader material, sharing the component's uniforms. */
  class ShaderMaterial {
    const uniforms: Uniforms

    constructor (uniforms: Uniforms)
      ensures this.uniforms == uniforms
    {
      this.uniforms := uniforms;
    }
  }

  /** The foliage component: its buffers, its uniforms and the material reference, absent until mounted. */
  class FoliageView {
    const positions: array<real>
    const treePositions: array<real>
    const scatterPositions: array<real>
    const sizes: array<real>
    const randoms: array<real>
    const uniforms: Uniforms
    var material: ShaderMaterial?

    ghost predicate Valid()
      reads this, material
    {
      && Separate(positions, treePositions, scatterPositions, sizes, randoms)
      && (material != null ==> material.uniforms == uniforms)
    }

    /** Mounting: the buffers are generated once, and the uniforms start at time 0 and mix 0. */
    constructor (rand: nat -> real, m: Transcendentals)
      requires IsRandomSource(rand) && RootsInUnit(m)
      ensures Valid() && material == null && fresh(uniforms)
      ensures fresh(positions) && fresh(treePositions) && fresh(scatterPositions) && fresh(sizes) && fresh(randoms)
      ensures uniforms.uTime == 0.0 && uniforms.uMix == 0.0
      ensures positions.Length == 3 * COUNT && Zeroed(positions)
      ensures treePositions.Length == 3 * COUNT && scatterPositions.Length == 3 * COUNT
      ensures sizes.Length == COUNT && randoms.Length == COUNT
      ensures forall i :: 0 <= i < COUNT ==>
        var q := MakeParticle(i, rand, m);
        && treePositions[3 * i] == q.treePos.x && treePositions[3 * i + 1] == q.treePos.y && treePositions[3 * i + 2] == q.treePos.z
        && scatterPositions[3 * i] == q.scatterPos.x && scatterPositions[3 * i + 1] == q.scatterPos.y
        && scatterPositions[3 * i + 2] == q.scatterPos.z
        && sizes[i] == q.size && randoms[i] == q.random
    {
      var p, tp, sp, s, r := GenerateBuffers(rand, m);
      positions, treePositions, scatterPositions, sizes, randoms := p, tp, sp, s, r;
      uniforms := new Uniforms();
      material := null;
    }

    /** The renderer creates the material with the component's uniforms and sets the reference. */
    method AttachMaterial()
      requires Valid()
      modifies this`material
      ensures Valid() && material != null
    {
      material := new ShaderMaterial(uniforms);
    }

    /**
     * One frame: with a material, uTime becomes the elapsed time and uMix
     * takes a step toward the mode's target at rate 1.5; without one,
     * nothing changes.
     */
    method Frame(mode: AppState, delta: real, elapsed: real)
      requires Valid()
      modifies uniforms
      ensures material != null ==>
        uniforms.uTime == elapsed && uniforms.uMix == Step(old(uniforms.uMix), mode, delta * MIX_RATE)
      ensures material == null ==> unchanged(uniforms)
    {
      if material != null {
        material.uniforms.uTime := elapsed;
        var targetMix := Target(mode);
        material.uniforms.uMix := Lerp(material.uniforms.uMix, targetMix, delta * MIX_RATE);
      }
    }
  }
}
