/**
 * The instanced ornaments: 300 items generated once, alternating boxes and
 * spheres, drawn by two instanced meshes of 150 slots each. A colour pass
 * runs once; every frame the host advances its own progress value and writes
 * one transform per item into the slot of its variant's batch.
 */
module Ornaments {
  import opened Numerics
  import opened Types
  import opened Sampling
  import opened Transition

  const COUNT: nat := 300
  /** The capacity each instanced mesh is created with. */
  const CAPACITY: nat := COUNT / 2
  const SCATTER_RADIUS: real := 40.0
  const TREE_HEIGHT: real := 16.0
  const TREE_RADIUS_BASE: real := 7.5
  /** Gold variations, silver and a dark red accent. */
  const PALETTE: seq<Color> := ["#C5A000", "#FFD700", "#B8860B", "#F5F5F5", "#8B0000"]
  /** Each item makes ten calls of Math.random(). */
  const DRAWS_PER_ITEM: nat := 10
  /** The host-side progress moves at rate 2 per second. */
  const PROGRESS_RATE: real := 2.0

  // ---------------------------------------------------------------------------
  // Per-item formulas

  /** Even ids are boxes, odd ids are spheres. */
  function KindOf(id: nat): OrnamentKind
  {
    if id % 2 == 0 then Box else Sphere
  }

  /** The cone's radius at a normalised height: a straight cone of base radius 7.5. */
  function RadiusAtHeight(hNorm: real): (r: real)
    requires 0.0 < hNorm <= 1.0
    ensures 0.0 < r <= TREE_RADIUS_BASE
  {
    hNorm * TREE_RADIUS_BASE
  }

  /** The ornament's distance from the axis: the cone's radius plus a depth offset below 0.5. */
  function FinalRadius(radiusAtH: real, w: real): (r: real)
    requires 0.0 <= w < 1.0
    ensures radiusAtH <= r < radiusAtH + 0.5
  {
    radiusAtH + w * 0.5
  }

  /** The scatter distance: a shell from 15 to 55 around the origin, given cbrt of a draw. */
  function ScatterRadius(cbrtW: real): (r: real)
    requires 0.0 <= cbrtW < 1.0
    ensures 15.0 <= r < 15.0 + SCATTER_RADIUS
  {
    15.0 + cbrtW * SCATTER_RADIUS
  }

  /** The item's scale, drawn from [0.2, 0.6). */
  function Scale(w: real): (s: real)
    requires 0.0 <= w < 1.0
    ensures 0.2 <= s < 0.6
  {
    w * 0.4 + 0.2
  }

  /** Math.floor(w * colors.length): always an index of the palette. */
  function PaletteIndex(w: real): (k: nat)
    requires 0.0 <= w < 1.0
    ensures k < |PALETTE|
  {
    (w * |PALETTE| as real).Floor
  }

  /** The tree position drawn from wy (height), wAngle (angle) and wDepth (depth offset). */
  function TreePosition(wy: real, wAngle: real, wDepth: real, m: Transcendentals): Vec3
    requires 0.0 <= wy < 1.0 && 0.0 <= wDepth < 1.0
  {
    var y := ConeY(wy, TREE_HEIGHT);
    var radiusAtH := RadiusAtHeight(DrawnHeightNorm(wy, TREE_HEIGHT));
    CirclePoint(wAngle * PI * 2.0, FinalRadius(radiusAtH, wDepth), y, m)
  }

  /** The scatter position drawn from wu, wv (direction) and wr (distance). */
  function ScatterPosition(wu: real, wv: real, wr: real, m: Transcendentals): Vec3
    requires RootsInUnit(m) && 0.0 <= wr < 1.0
  {
    SpherePoint(ScatterRadius(m.cbrt(wr)), wu, wv, m)
  }

  /** Item `id` of the generator, made from the draws 10 * id .. 10 * id + 9 of the random source. */
  function MakeOrnament(id: nat, rand: nat -> real, m: Transcendentals): OrnamentData
    requires IsRandomSource(rand) && RootsInUnit(m)
  {
    var b := DRAWS_PER_ITEM * id;
    OrnamentData(
      id,
      ScatterPosition(rand(b + 3), rand(b + 4), rand(b + 5), m),
      TreePosition(rand(b), rand(b + 1), rand(b + 2), m),
      Vec3(rand(b + 6) * PI, rand(b + 7) * PI, 0.0),
      Scale(rand(b + 8)),
      PALETTE[PaletteIndex(rand(b + 9))],
      KindOf(id))
  }

  /**
   * Where an item sits on the tree: at a height y in [-8, 8), at a distance
   * from the axis that is the cone's radius at y plus a depth offset in
   * [0, 0.5).
   */
  lemma TreePlacement(wy: real, wAngle: real, wDepth: real, m: Transcendentals)
    requires Pythagorean(m) && 0.0 <= wy < 1.0 && 0.0 <= wDepth < 1.0
    ensures var p := TreePosition(wy, wAngle, wDepth, m);
      var hNorm := DrawnHeightNorm(wy, TREE_HEIGHT);
      var rFinal := FinalRadius(RadiusAtHeight(hNorm), wDepth);
      && -8.0 <= p.y < 8.0
      && hNorm == HeightNorm(p.y, TREE_HEIGHT)
      && RadiusAtHeight(hNorm) <= rFinal < RadiusAtHeight(hNorm) + 0.5
      && p.x * p.x + p.z * p.z == rFinal * rFinal
  {
    var rFinal := FinalRadius(RadiusAtHeight(DrawnHeightNorm(wy, TREE_HEIGHT)), wDepth);
    CirclePointRadius(wAngle * PI * 2.0, rFinal, ConeY(wy, TREE_HEIGHT), m);
  }

  /** Where an item sits when scattered: at a distance in [15, 55) from the origin. */
  lemma ScatterPlacement(wu: real, wv: real, wr: real, m: Transcendentals)
    requires RootsInUnit(m) && Pythagorean(m) && 0.0 <= wr < 1.0
    ensures var rScatter := ScatterRadius(m.cbrt(wr));
      && 15.0 <= rScatter < 55.0
      && NormSq(ScatterPosition(wu, wv, wr, m)) == rScatter * rScatter
  {
    SpherePointNorm(ScatterRadius(m.cbrt(wr)), wu, wv, m);
  }

  /**
   * Item `id` carries its own id and the kind of its parity; its scale lies in
   * [0.2, 0.6), its rotation angles in [0, PI) with no roll, and its colour is
   * one of the palette's.
   */
  lemma OrnamentAttributes(id: nat, rand: nat -> real, m: Transcendentals)
    requires IsRandomSource(rand) && RootsInUnit(m)
    ensures var o := MakeOrnament(id, rand, m);
      && o.id == id
      && o.kind == (if id % 2 == 0 then Box else Sphere)
      && 0.2 <= o.scale < 0.6
      && 0.0 <= o.rotation.x < PI && 0.0 <= o.rotation.y < PI && o.rotation.z == 0.0
      && o.color in PALETTE
  {
    var b := DRAWS_PER_ITEM * id;
    RotationAngle(rand(b + 6));
    RotationAngle(rand(b + 7));
  }

  lemma RotationAngle(w: real)
    requires 0.0 <= w < 1.0
    ensures 0.0 <= w * PI < PI
  {
    MulNonneg(w, PI);
    MulPositive(1.0 - w, PI);
  }

  /** The generation loop: pushes item i for i = 0 .. COUNT - 1. */
  method GenerateOrnaments(rand: nat -> real, m: Transcendentals) returns (items: seq<OrnamentData>)
    requires IsRandomSource(rand) && RootsInUnit(m)
    ensures |items| == COUNT
    ensures forall i :: 0 <= i < COUNT ==> items[i] == MakeOrnament(i, rand, m)
  {
    items := [];
    var i := 0;
    while i < COUNT
      invariant 0 <= i <= COUNT
      invariant |items| == i
      invariant forall j :: 0 <= j < i ==> items[j] == MakeOrnament(j, rand, m)
    {
      items := items + [MakeOrnament(i, rand, m)];
      i := i + 1;
    }
  }

  // ---------------------------------------------------------------------------
  // Variants and batch slots

  /** The number of items of kind `k` among the first `n`. */
  function CountKind(items: seq<OrnamentData>, k: OrnamentKind, n: nat): (c: nat)
    requires n <= |items|
    ensures c <= n
  {
    if n == 0 then 0
    else CountKind(items, k, n - 1) + (if items[n - 1].kind == k then 1 else 0)
  }

  /** The slot item i takes in its variant's batch: the number of earlier items of its kind. */
  function Rank(items: seq<OrnamentData>, i: nat): nat
    requires i < |items|
  {
    CountKind(items, items[i].kind, i)
  }

  /** Items alternate box, sphere, box, ... by index, as the generator makes them. */
  ghost predicate Interleaved(items: seq<OrnamentData>)
  {
    forall i :: 0 <= i < |items| ==> items[i].kind == KindOf(i)
  }

  /** Counting a longer prefix never counts fewer items. */
  lemma {:induction false} CountKindMonotone(items: seq<OrnamentData>, i: nat, j: nat, k: OrnamentKind)
    requires i <= j <= |items|
    ensures CountKind(items, k, i) <= CountKind(items, k, j)
    decreases j - i
  {
    if i < j {
      CountKindMonotone(items, i, j - 1, k);
    }
  }

  /**
   * Ranks are strictly increasing among items of one kind, so no two items of
   * one kind share a slot, slots follow id order, and every slot lies below
   * the number of items of that kind.
   */
  lemma RankIncreasing(items: seq<OrnamentData>, i: nat, j: nat)
    requires i < j < |items| && items[i].kind == items[j].kind
    ensures Rank(items, i) < Rank(items, j)
    ensures Rank(items, j) < CountKind(items, items[j].kind, |items|)
  {
    var k := items[i].kind;
    CountKindMonotone(items, i + 1, j, k);
    CountKindMonotone(items, j + 1, |items|, k);
  }

  /** An interleaved prefix of 2k items holds k boxes and k spheres. */
  lemma {:induction false} InterleavedCounts(items: seq<OrnamentData>, k: nat)
    requires Interleaved(items) && 2 * k <= |items|
    ensures CountKind(items, Box, 2 * k) == k
    ensures CountKind(items, Sphere, 2 * k) == k
  {
    if k > 0 {
      InterleavedCounts(items, k - 1);
      var n := 2 * k - 2;
      assert items[n].kind == Box && items[n + 1].kind == Sphere;
    }
  }

  /** In interleaved items, items 2k and 2k+1 both go to slot k of their batches. */
  lemma InterleavedRank(items: seq<OrnamentData>, k: nat)
    requires Interleaved(items) && 2 * k + 1 < |items|
    ensures Rank(items, 2 * k) == k && Rank(items, 2 * k + 1) == k
  {
    InterleavedCounts(items, k);
    assert items[2 * k].kind == Box && items[2 * k + 1].kind == Sphere;
  }

  /** The 300 generated items are 150 boxes and 150 spheres, and each batch is filled exactly. */
  lemma GeneratedSplit(items: seq<OrnamentData>)
    requires Interleaved(items) && |items| == COUNT
    ensures CountKind(items, Box, COUNT) == CAPACITY
    ensures CountKind(items, Sphere, COUNT) == CAPACITY
  {
    InterleavedCounts(items, CAPACITY);
  }

  /** The generator's output alternates box, sphere, ... and item i has id i. */
  lemma GeneratedInterleaved(items: seq<OrnamentData>, rand: nat -> real, m: Transcendentals)
    requires IsRandomSource(rand) && RootsInUnit(m)
    requires |items| == COUNT && forall i :: 0 <= i < COUNT ==> items[i] == MakeOrnament(i, rand, m)
    ensures Interleaved(items)
    ensures forall i :: 0 <= i < COUNT ==> items[i].id == i
  {
  }

  /**
   * The values of the items of kind `k` among the first `n`, in id order:
   * what a buffer of that kind holds in its first slots after a pass.
   */
  function Batch<T>(items: seq<OrnamentData>, k: OrnamentKind, value: OrnamentData -> T, n: nat): (b: seq<T>)
    requires n <= |items|
    ensures |b| == CountKind(items, k, n)
  {
    if n == 0 then []
    else Batch(items, k, value, n - 1) + (if items[n - 1].kind == k then [value(items[n - 1])] else [])
  }

  /** Item i's value sits in its kind's batch at the item's rank. */
  lemma {:induction false} BatchAt<T>(items: seq<OrnamentData>, i: nat, value: OrnamentData -> T, n: nat)
    requires i < n <= |items|
    ensures Rank(items, i) < CountKind(items, items[i].kind, n)
    ensures Batch(items, items[i].kind, value, n)[Rank(items, i)] == value(items[i])
    decreases n
  {
    if i < n - 1 {
      BatchAt(items, i, value, n - 1);
    }
  }

  /**
   * Over the interleaved 300 items, both batches hold 150 values: box slot k
   * holds item 2k's value and sphere slot k holds item 2k+1's.
   */
  lemma InterleavedBatches<T>(items: seq<OrnamentData>, value: OrnamentData -> T)
    requires Interleaved(items) && |items| == COUNT
    ensures |Batch(items, Box, value, COUNT)| == CAPACITY && |Batch(items, Sphere, value, COUNT)| == CAPACITY
    ensures forall k :: 0 <= k < CAPACITY ==> Batch(items, Box, value, COUNT)[k] == value(items[2 * k])
    ensures forall k :: 0 <= k < CAPACITY ==> Batch(items, Sphere, value, COUNT)[k] == value(items[2 * k + 1])
  {
    GeneratedSplit(items);
    forall k | 0 <= k < CAPACITY
      ensures Batch(items, Box, value, COUNT)[k] == value(items[2 * k])
      ensures Batch(items, Sphere, value, COUNT)[k] == value(items[2 * k + 1])
    {
      InterleavedSlot(items, k, value);
    }
  }

  lemma InterleavedSlot<T>(items: seq<OrnamentData>, k: nat, value: OrnamentData -> T)
    requires Interleaved(items) && 2 * k + 1 < |items|
    ensures k < |Batch(items, Box, value, |items|)| && Batch(items, Box, value, |items|)[k] == value(items[2 * k])
    ensures k < |Batch(items, Sphere, value, |items|)| && Batch(items, Sphere, value, |items|)[k] == value(items[2 * k + 1])
  {
    InterleavedRank(items, k);
    var i, j := 2 * k, 2 * k + 1;
    assert items[i].kind == Box && items[j].kind == Sphere;
    BatchAt(items, i, value, |items|);
    BatchAt(items, j, value, |items|);
  }

  /** A buffer holds `batch` in its first slots and its original contents `orig` in the rest. */
  ghost predicate Filled<T>(buffer: array<T>, batch: seq<T>, orig: seq<T>)
    reads buffer
  {
    && |batch| <= buffer.Length == |orig|
    && (forall j :: 0 <= j < |batch| ==> buffer[j] == batch[j])
    && (forall j :: |batch| <= j < buffer.Length ==> buffer[j] == orig[j])
  }

  /**
   * InstancedMesh.setColorAt / setMatrixAt at a batch's counter: the slot
   * after the filled prefix takes `v`. Three.js does not check the slot
   * exists; here it must.
   */
  method SetAt<T>(buffer: array<T>, index: nat, v: T, ghost done: seq<T>, ghost orig: seq<T>)
    requires index == |done| < buffer.Length
    requires Filled(buffer, done, orig)
    modifies buffer
    ensures Filled(buffer, done + [v], orig)
  {
    buffer[index] := v;
  }

  /**
   * The state of a pass after its first n items: each present buffer's
   * counter is the number of items of its kind so far, and the buffer holds
   * their values in its first slots, its original contents in the rest; an
   * absent buffer's counter is 0.
   */
  ghost predicate PassState<T>(items: seq<OrnamentData>, n: nat, value: OrnamentData -> T, spheres: array?<T>, boxes: array?<T>,
                               sphereIndex: nat, boxIndex: nat, sphereOrig: seq<T>, boxOrig: seq<T>)
    reads spheres, boxes
  {
    && n <= |items|
    && (spheres != null ==> sphereIndex == CountKind(items, Sphere, n))
    && (boxes != null ==> boxIndex == CountKind(items, Box, n))
    && (spheres == null ==> sphereIndex == 0)
    && (boxes == null ==> boxIndex == 0)
    && (spheres != null ==> Filled(spheres, Batch(items, Sphere, value, n), sphereOrig))
    && (boxes != null ==> Filled(boxes, Batch(items, Box, value, n), boxOrig))
  }

  /**
   * The per-item callback of the pass: a sphere goes to the sphere buffer's
   * counter if that buffer is present, otherwise a box goes to the box
   * buffer's counter if that one is present; the counter written advances.
   */
  method PlaceItem<T>(items: seq<OrnamentData>, n: nat, value: OrnamentData -> T, spheres: array?<T>, boxes: array?<T>,
                      sphereIndex: nat, boxIndex: nat, ghost sphereOrig: seq<T>, ghost boxOrig: seq<T>)
    returns (nextSphereIndex: nat, nextBoxIndex: nat)
    requires n < |items|
    requires spheres != null && boxes != null ==> spheres != boxes
    requires spheres != null ==> CountKind(items, Sphere, |items|) <= spheres.Length
    requires boxes != null ==> CountKind(items, Box, |items|) <= boxes.Length
    requires PassState(items, n, value, spheres, boxes, sphereIndex, boxIndex, sphereOrig, boxOrig)
    modifies spheres, boxes
    ensures PassState(items, n + 1, value, spheres, boxes, nextSphereIndex, nextBoxIndex, sphereOrig, boxOrig)
  {
    var item := items[n];
    CountKindMonotone(items, n + 1, |items|, item.kind);
    nextSphereIndex, nextBoxIndex := sphereIndex, boxIndex;
    if item.kind == Sphere && spheres != null {
      SetAt(spheres, sphereIndex, value(item), Batch(items, Sphere, value, n), sphereOrig);
      nextSphereIndex := sphereIndex + 1;
    } else if item.kind == Box && boxes != null {
      SetAt(boxes, boxIndex, value(item), Batch(items, Box, value, n), boxOrig);
      nextBoxIndex := boxIndex + 1;
    }
  }

  /**
   * The pass that both the colour initialisation and the frame loop make:
   * both counters start at 0 and the items are visited in id order. At the
   * end each present buffer holds the batch of its kind in its first slots
   * and its old contents in the rest.
   */
  method FillBatches<T>(items: seq<OrnamentData>, value: OrnamentData -> T, spheres: array?<T>, boxes: array?<T>)
    returns (sphereIndex: nat, boxIndex: nat)
    requires spheres != null && boxes != null ==> spheres != boxes
    requires spheres != null ==> CountKind(items, Sphere, |items|) <= spheres.Length
    requires boxes != null ==> CountKind(items, Box, |items|) <= boxes.Length
    modifies spheres, boxes
    ensures PassState(items, |items|, value, spheres, boxes, sphereIndex, boxIndex,
                      if spheres != null then old(spheres[..]) else [], if boxes != null then old(boxes[..]) else [])
  {
    ghost var sphereOrig := if spheres != null then spheres[..] else [];
    ghost var boxOrig := if boxes != null then boxes[..] else [];
    sphereIndex, boxIndex := 0, 0;
    var n := 0;
    while n < |items|
      invariant PassState(items, n, value, spheres, boxes, sphereIndex, boxIndex, sphereOrig, boxOrig)
    {
      sphereIndex, boxIndex := PlaceItem(items, n, value, spheres, boxes, sphereIndex, boxIndex, sphereOrig, boxOrig);
      n := n + 1;
    }
  }

  // ---------------------------------------------------------------------------
  // Per-frame transform

  /** The float-noise amplitude: 0.05 when scattered, shrinking to 0.01 in the tree. */
  function FloatMagnitude(progress: real): (r: real)
    ensures 0.0 <= progress <= 1.0 ==> 0.01 <= r <= 0.05
  {
    if 0.0 <= progress <= 1.0 then
      LerpBetween(0.05, 0.01, progress);
      Lerp(0.05, 0.01, progress)
    else
      Lerp(0.05, 0.01, progress)
  }

  /** The spin rate: 1.0 when scattered, slowing to 0.1 in the tree. */
  function RotationSpeed(progress: real): (r: real)
    ensures 0.0 <= progress <= 1.0 ==> 0.1 <= r <= 1.0
  {
    if 0.0 <= progress <= 1.0 then
      LerpBetween(1.0, 0.1, progress);
      Lerp(1.0, 0.1, progress)
    else
      Lerp(1.0, 0.1, progress)
  }

  /** Both the float amplitude and the spin rate are non-increasing in progress. */
  lemma CalmerTowardTree(p: real, q: real)
    requires p <= q
    ensures FloatMagnitude(q) <= FloatMagnitude(p)
    ensures RotationSpeed(q) <= RotationSpeed(p)
  {
  }

  /** What Object3D.updateMatrix composes into one instance matrix. */
  datatype Transform = Transform(position: Vec3, rotation: Vec3, scale: real)

  /** The transform of one item in a frame at the given progress and elapsed time. */
  function InstanceTransform(item: OrnamentData, progress: real, time: real, m: Transcendentals): Transform
  {
    var base := LerpVectors(item.scatterPos, item.treePos, progress);
    var floatMag := FloatMagnitude(progress);
    var rotSpeed := RotationSpeed(progress);
    Transform(
      Vec3(base.x + m.cos(time * 1.5 + item.id as real) * floatMag,
           base.y + m.sin(time * 2.0 + item.id as real) * floatMag,
           base.z),
      Vec3(item.rotation.x + time * 0.2 * rotSpeed, item.rotation.y + time * 0.3 * rotSpeed, item.rotation.z),
      item.scale)
  }

  /**
   * An item's frame transform sits within the float amplitude of the point
   * interpolated between its scatter and tree positions (exactly on it in z),
   * at its static scale; at progress 0 and 1 that point is the scatter and the
   * tree position.
   */
  lemma InstanceNearPath(item: OrnamentData, progress: real, time: real, m: Transcendentals)
    requires WavesBounded(m) && 0.0 <= progress <= 1.0
    ensures var t := InstanceTransform(item, progress, time, m);
      var base := LerpVectors(item.scatterPos, item.treePos, progress);
      && Within(t.position.x, base.x, FloatMagnitude(progress))
      && Within(t.position.y, base.y, FloatMagnitude(progress))
      && t.position.z == base.z
      && t.scale == item.scale
      && (progress == 0.0 ==> base == item.scatterPos)
      && (progress == 1.0 ==> base == item.treePos)
  {
    var base := LerpVectors(item.scatterPos, item.treePos, progress);
    var floatMag := FloatMagnitude(progress);
    WaveBounded(base.x, m.cos(time * 1.5 + item.id as real), floatMag);
    WaveBounded(base.y, m.sin(time * 2.0 + item.id as real), floatMag);
  }

  // ---------------------------------------------------------------------------
  // The component

  /** An instanced mesh: a fixed number of slots, each with a transform and a colour. */
  class InstancedMesh {
    const count: nat
    const instanceMatrix: array<Transform>
    const instanceColor: array<Color>

    ghost predicate Valid()
    {
      instanceMatrix.Length == count && instanceColor.Length == count
    }

    constructor (count: nat)
      ensures Valid() && this.count == count
      ensures fresh(instanceMatrix) && fresh(instanceColor)
    {
      this.count := count;
      instanceMatrix := new Transform[count];
      instanceColor := new Color[count];
    }
  }

  /** The ornament component: its generated items, its two meshes (either may be absent) and its progress. */
  class OrnamentsView {
    const data: seq<OrnamentData>
    const sphereMesh: InstancedMesh?
    const boxMesh: InstancedMesh?
    var progress: real

    ghost predicate Valid()
    {
      && |data| == COUNT
      && Interleaved(data)
      && (forall i :: 0 <= i < COUNT ==> data[i].id == i)
      && (sphereMesh != null ==> sphereMesh.Valid() && sphereMesh.count == CAPACITY)
      && (boxMesh != null ==> boxMesh.Valid() && boxMesh.count == CAPACITY)
      && (sphereMesh != null && boxMesh != null ==>
            sphereMesh.instanceMatrix != boxMesh.instanceMatrix && sphereMesh.instanceColor != boxMesh.instanceColor)
    }

    ghost function MatrixBuffers(): set<object>
    {
      (if sphereMesh != null then {sphereMesh.instanceMatrix} else {}) + (if boxMesh != null then {boxMesh.instanceMatrix} else {})
    }

    ghost function ColorBuffers(): set<object>
    {
      (if sphereMesh != null then {sphereMesh.instanceColor} else {}) + (if boxMesh != null then {boxMesh.instanceColor} else {})
    }

    /** Mounting: the items are generated once and progress starts at 0. */
    constructor (rand: nat -> real, m: Transcendentals, sphereMesh: InstancedMesh?, boxMesh: InstancedMesh?)
      requires IsRandomSource(rand) && RootsInUnit(m)
      requires sphereMesh != null ==> sphereMesh.Valid() && sphereMesh.count == CAPACITY
      requires boxMesh != null ==> boxMesh.Valid() && boxMesh.count == CAPACITY
      requires sphereMesh != null && boxMesh != null ==>
        sphereMesh.instanceMatrix != boxMesh.instanceMatrix && sphereMesh.instanceColor != boxMesh.instanceColor
      ensures Valid() && progress == 0.0
      ensures forall i :: 0 <= i < COUNT ==> data[i] == MakeOrnament(i, rand, m)
      ensures this.sphereMesh == sphereMesh && this.boxMesh == boxMesh
    {
      var items := GenerateOrnaments(rand, m);
      GeneratedInterleaved(items, rand, m);
      data := items;
      this.sphereMesh := sphereMesh;
      this.boxMesh := boxMesh;
      progress := 0.0;
    }

    /**
     * The colour pass: box slot k gets item 2k's colour and sphere slot k gets
     * item 2k+1's. The counters it returns end at 150 for each mesh present
     * and stay 0 for a mesh that is absent.
     */
    method InitColors() returns (sphereIndex: nat, boxIndex: nat)
      requires Valid()
      modifies ColorBuffers()
      ensures sphereIndex == (if sphereMesh != null then CAPACITY else 0)
      ensures boxIndex == (if boxMesh != null then CAPACITY else 0)
      ensures sphereMesh != null ==> forall k :: 0 <= k < CAPACITY ==> sphereMesh.instanceColor[k] == data[2 * k + 1].color
      ensures boxMesh != null ==> forall k :: 0 <= k < CAPACITY ==> boxMesh.instanceColor[k] == data[2 * k].color
    {
      var colorOf := (item: OrnamentData) => item.color;
      InterleavedBatches(data, colorOf);
      var spheres := if sphereMesh != null then sphereMesh.instanceColor else null;
      var boxes := if boxMesh != null then boxMesh.instanceColor else null;
      sphereIndex, boxIndex := FillBatches(data, colorOf, spheres, boxes);
    }

    /**
     * One frame: progress takes a step toward the mode's target at rate 2,
     * then box slot k gets item 2k's transform and sphere slot k gets item
     * 2k+1's, every slot of each batch written once. The counters it
     * returns end at 150 for each mesh present and stay 0 for a mesh that is
     * absent.
     */
    method Frame(mode: AppState, delta: real, time: real, m: Transcendentals) returns (sphereIndex: nat, boxIndex: nat)
      requires Valid()
      modifies this`progress, MatrixBuffers()
      ensures progress == Step(old(progress), mode, delta * PROGRESS_RATE)
      ensures sphereIndex == (if sphereMesh != null then CAPACITY else 0)
      ensures boxIndex == (if boxMesh != null then CAPACITY else 0)
      ensures sphereMesh != null ==>
        forall k :: 0 <= k < CAPACITY ==> sphereMesh.instanceMatrix[k] == InstanceTransform(data[2 * k + 1], progress, time, m)
      ensures boxMesh != null ==>
        forall k :: 0 <= k < CAPACITY ==> boxMesh.instanceMatrix[k] == InstanceTransform(data[2 * k], progress, time, m)
    {
      progress := Step(progress, mode, delta * PROGRESS_RATE);
      var p := progress;
      var transformOf := (item: OrnamentData) => InstanceTransform(item, p, time, m);
      InterleavedBatches(data, transformOf);
      var spheres := if sphereMesh != null then sphereMesh.instanceMatrix else null;
      var boxes := if boxMesh != null then boxMesh.instanceMatrix else null;
      sphereIndex, boxIndex := FillBatches(data, transformOf, spheres, boxes);
    }
  }
}
