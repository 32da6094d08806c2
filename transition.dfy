/**
 * The transition driver shared by the ornaments and the point cloud: each
 * frame, a progress value is moved toward the mode's target with
 * THREE.MathUtils.lerp(progress, target, delta * rate), with no clamp.
 */
module Transition {
  import opened Types
  import opened Numerics

  /** The progress the current mode asks for: 1 for the tree, 0 for the scatter. */
  function Target(mode: AppState): (t: real)
    ensures t == 1.0 <==> mode == TREE_SHAPE
    ensures t == 0.0 <==> mode == SCATTERED
  {
    match mode
    case TREE_SHAPE => 1.0
    case SCATTERED => 0.0
  }

  /**
   * One frame of the driver, whose interpolation factor `alpha` is the
   * frame's delta times the driver's rate. While the frame is short enough
   * that alpha <= 1, progress stays in [0, 1], moves toward the target and
   * never past it, and rests once it has reached it.
   */
  function Step(progress: real, mode: AppState, alpha: real): real
  {
    Lerp(progress, Target(mode), alpha)
  }

  /**
   * While the frame is short enough that alpha <= 1, a step keeps progress in
   * [0, 1] and moves it toward the target but never past it; once progress has
   * reached the target, a step leaves it there.
   */
  lemma StepBounded(progress: real, mode: AppState, alpha: real)
    ensures 0.0 <= progress <= 1.0 && 0.0 <= alpha <= 1.0 ==>
              var r := Step(progress, mode, alpha); 0.0 <= r <= 1.0 && Between(r, progress, Target(mode))
    ensures progress == Target(mode) ==> Step(progress, mode, alpha) == progress
  {
    if 0.0 <= alpha <= 1.0 {
      LerpBetween(progress, Target(mode), alpha);
    }
  }

  /** The distance to the target shrinks by the factor 1 - alpha each frame. */
  lemma StepContracts(progress: real, mode: AppState, alpha: real)
    ensures Target(mode) - Step(progress, mode, alpha) == (1.0 - alpha) * (Target(mode) - progress)
  {
    var g := Target(mode);
    calc {
      g - Lerp(progress, g, alpha);
      g - ((1.0 - alpha) * progress + alpha * g);
      (1.0 - alpha) * g - (1.0 - alpha) * progress;
      (1.0 - alpha) * (g - progress);
    }
  }

  /**
   * With no clamp, a frame long enough that alpha > 1 carries progress
   * past its target, out of [0, 1].
   */
  lemma LongFrameOvershoots(progress: real, mode: AppState, alpha: real)
    requires 0.0 <= progress <= 1.0 && progress != Target(mode)
    requires alpha > 1.0
    ensures var r := Step(progress, mode, alpha); r < 0.0 || r > 1.0
  {
    StepContracts(progress, mode, alpha);
    var d := Target(mode) - progress;
    var k := 1.0 - alpha;
    assert k < 0.0;
    if mode == TREE_SHAPE {
      assert d > 0.0;
      assert k * d < 0.0;
    } else {
      assert d < 0.0;
      assert k * d > 0.0;
    }
  }

  /** The progress after `n` frames of the same length under the same mode. */
  function Frames(progress: real, mode: AppState, alpha: real, n: nat): real
    decreases n
  {
    if n == 0 then progress else Step(Frames(progress, mode, alpha, n - 1), mode, alpha)
  }

  /**
   * Repeated short frames move progress monotonically toward the target
   * without overshoot: every frame lies between the previous one and the
   * target, and within [0, 1].
   */
  lemma {:induction false} FramesMonotone(progress: real, mode: AppState, alpha: real, n: nat)
    requires 0.0 <= progress <= 1.0 && 0.0 <= alpha <= 1.0
    ensures 0.0 <= Frames(progress, mode, alpha, n) <= 1.0
    ensures Between(Frames(progress, mode, alpha, n + 1), Frames(progress, mode, alpha, n), Target(mode))
    decreases n
  {
    if n > 0 {
      FramesMonotone(progress, mode, alpha, n - 1);
    }
    StepBounded(Frames(progress, mode, alpha, n), mode, alpha);
  }

  /**
   * From rest at 0 after a toggle to the tree, with 0 < alpha < 1, every
   * frame strictly increases progress and progress stays strictly below 1:
   * it approaches the tree without ever reaching or passing it.
   */
  lemma {:induction false} FramesRiseStrictly(alpha: real, k: nat)
    requires 0.0 < alpha < 1.0
    ensures 0.0 <= Frames(0.0, TREE_SHAPE, alpha, k) < Frames(0.0, TREE_SHAPE, alpha, k + 1) < 1.0
    decreases k
  {
    if k > 0 {
      FramesRiseStrictly(alpha, k - 1);
    }
    RisesTowardTree(Frames(0.0, TREE_SHAPE, alpha, k), alpha);
  }

  /** Below the tree target, a frame with 0 < alpha < 1 strictly rises and stays below 1. */
  lemma RisesTowardTree(f: real, alpha: real)
    requires 0.0 < alpha < 1.0 && 0.0 <= f < 1.0
    ensures f < Step(f, TREE_SHAPE, alpha) < 1.0
  {
    StepContracts(f, TREE_SHAPE, alpha);
    RiseArithmetic(f, alpha, Step(f, TREE_SHAPE, alpha));
  }

  lemma RiseArithmetic(f: real, alpha: real, s: real)
    requires 0.0 < alpha < 1.0 && 0.0 <= f < 1.0
    requires 1.0 - s == (1.0 - alpha) * (1.0 - f)
    ensures f < s < 1.0
  {
    var a, d := 1.0 - alpha, 1.0 - f;
    MulPositive(a, d);
    assert 0.0 < a * d;
    assert 1.0 - s == a * d;
    MulPositive(alpha, d);
    assert a * d == d - alpha * d;
    assert s - f == alpha * d;
  }

  /**
   * The scenario of ten frames of 1/60 s at the ornaments' rate 2 after a
   * toggle from rest: each frame rises, and none reaches 1.
   */
  lemma TenFramesAfterToggle(k: nat)
    requires k < 10
    ensures 0.0 <= Frames(0.0, TREE_SHAPE, 1.0 / 60.0 * 2.0, k) < Frames(0.0, TREE_SHAPE, 1.0 / 60.0 * 2.0, k + 1) < 1.0
  {
    FramesRiseStrictly(1.0 / 60.0 * 2.0, k);
  }
}
