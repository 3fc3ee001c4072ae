/**
 * The sphere-tracing loop shared by the three 3D shaders: at most 100 steps,
 * each evaluating the distance estimate at the current depth along the ray
 * and advancing by a fixed fraction of it, stopping once the estimate drops
 * below 0.001 or the depth passes the shader's far limit.
 *
 * The distance estimate itself is a parameter: it maps a depth along the ray
 * to the estimate at `ro + rd * depth`.
 */
module RayMarch {

  /** `MAX_STEPS`. */
  const MaxSteps: nat := 100

  /** `EPSILON`. */
  const Epsilon: real := 0.001

  /** What differs between the shaders: the step fraction and `MAX_DIST`. */
  datatype MarchConfig = MarchConfig(stepScale: real, maxDist: real)

  /** Quaternion Julia: half steps, far limit 20. */
  const QuaternionMarch: MarchConfig := MarchConfig(0.5, 20.0)
  /** Kleinian: half steps, far limit 50. */
  const KleinianMarch: MarchConfig := MarchConfig(0.5, 50.0)
  /** Menger sponge: full steps, far limit 100. */
  const MengerMarch: MarchConfig := MarchConfig(1.0, 100.0)

  /**
   * The final depth, the number of estimates taken, the last estimate and
   * the depth it was taken at.
   */
  datatype March = March(depth: real, steps: nat, lastDist: real, before: real)

  predicate Stops(cfg: MarchConfig, dist: real, depth: real)
  {
    dist < Epsilon || depth > cfg.maxDist
  }

  /** One step: estimate at `depth` and advance by `stepScale` times the estimate. */
  function Advance(de: real -> real, cfg: MarchConfig, depth: real): real
  {
    depth + de(depth) * cfg.stepScale
  }

  /** The march from step `i` at depth `depth`; `lastDist` and `before` describe the previous step. */
  function MarchFrom(de: real -> real, cfg: MarchConfig, depth: real, lastDist: real, before: real, i: nat): (m: March)
    ensures i <= MaxSteps ==> i <= m.steps <= MaxSteps
    ensures i < MaxSteps ==> m.steps >= 1
    ensures i < MaxSteps ==> m.lastDist == de(m.before) && m.depth == Advance(de, cfg, m.before)
    ensures i < MaxSteps && m.steps < MaxSteps ==> Stops(cfg, m.lastDist, m.depth)
    decreases MaxSteps - i
  {
    if i >= MaxSteps then March(depth, i, lastDist, before)
    else
      var next := Advance(de, cfg, depth);
      if Stops(cfg, de(depth), next) then March(next, i + 1, de(depth), depth)
      else MarchFrom(de, cfg, next, de(depth), depth, i + 1)
  }

  /** The march as the shader starts it, at depth 0. */
  function Trace(de: real -> real, cfg: MarchConfig): March
  {
    MarchFrom(de, cfg, 0.0, 0.0, 0.0, 0)
  }

  /** One pass of the loop: stop if the new estimate or depth says so, otherwise go on. */
  lemma MarchPass(de: real -> real, cfg: MarchConfig, depth: real, lastDist: real, before: real, i: nat)
    requires i < MaxSteps
    ensures Stops(cfg, de(depth), Advance(de, cfg, depth)) ==>
      MarchFrom(de, cfg, depth, lastDist, before, i) == March(Advance(de, cfg, depth), i + 1, de(depth), depth)
    ensures !Stops(cfg, de(depth), Advance(de, cfg, depth)) ==>
      MarchFrom(de, cfg, depth, lastDist, before, i) == MarchFrom(de, cfg, Advance(de, cfg, depth), de(depth), depth, i + 1)
  {
  }

  /** `rayMarch`: start at depth 0 and step along the ray. */
  method RayMarch(de: real -> real, cfg: MarchConfig) returns (depth: real, steps: nat)
    ensures 1 <= steps <= MaxSteps
    ensures depth == Trace(de, cfg).depth && steps == Trace(de, cfg).steps
  {
    depth := 0.0;
    ghost var lastDist, before := 0.0, 0.0;
    var i := 0;
    while i < MaxSteps
      invariant i <= MaxSteps
      invariant MarchFrom(de, cfg, depth, lastDist, before, i) == Trace(de, cfg)
      decreases MaxSteps - i
    {
      MarchPass(de, cfg, depth, lastDist, before, i);
      var dist := de(depth);
      before, lastDist := depth, dist;
      depth := Advance(de, cfg, depth);
      i := i + 1;
      if dist < Epsilon || depth > cfg.maxDist {
        break;
      }
    }
    steps := i;
  }

  /** A ray whose first estimate is already below the threshold stops after one step. */
  lemma FirstHitStopsAtOnce(de: real -> real, cfg: MarchConfig)
    requires de(0.0) < Epsilon
    ensures Trace(de, cfg).steps == 1 && Trace(de, cfg).depth == de(0.0) * cfg.stepScale
  {
    MarchPass(de, cfg, 0.0, 0.0, 0.0, 0);
  }

  /**
   * A ray that never comes within the threshold of the surface either runs
   * all 100 steps or ends beyond the far limit.
   */
  lemma MissStopsBeyondFarLimit(de: real -> real, cfg: MarchConfig)
    requires forall t :: de(t) >= Epsilon
    ensures Trace(de, cfg).steps == MaxSteps || Trace(de, cfg).depth > cfg.maxDist
  {
  }
}
