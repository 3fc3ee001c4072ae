/**
 * The Kleinian distance estimator: a box fold and a sphere fold applied to
 * the point, then scaled by 1.8 and translated back by the starting point,
 * twenty times, while the derivative `dr` follows `dr := dr * |1.8| + 1`.
 *
 * The final estimate `length(z) / abs(dr)` needs a square root and is not
 * part of this model; what is proved is that its divisor is at least 1.
 */
module Kleinian {
  import opened Common

  /** `MAX_ITERATIONS` of the estimator. */
  const MaxIterations: nat := 20

  /** The constants `kleinian` passes to the folds. */
  const Scale: real := 1.8
  const FoldLimit: real := 1.0
  const MinRadius: real := 0.5
  const FixedRadius: real := 1.0

  /** One component of `clamp(p, -L, L) * 2.0 - p`. */
  function FoldComponent(x: real, limit: real): real
  {
    Clamp(x, -limit, limit) * 2.0 - x
  }

  /** `boxFold`, component by component. */
  function BoxFold(p: Vec3, limit: real): Vec3
  {
    Vec3(FoldComponent(p.x, limit), FoldComponent(p.y, limit), FoldComponent(p.z, limit))
  }

  /**
   * A component within the limit is left alone; one beyond the limit is
   * reflected in it: `x > L` maps to `2L - x` and `x < -L` to `-2L - x`.
   */
  lemma FoldComponentCases(x: real, limit: real)
    requires limit >= 0.0
    ensures -limit <= x <= limit ==> FoldComponent(x, limit) == x
    ensures x > limit ==> FoldComponent(x, limit) == 2.0 * limit - x
    ensures x < -limit ==> FoldComponent(x, limit) == -2.0 * limit - x
  {
  }

  /** Folding never moves a component further from zero. */
  lemma FoldComponentShrinks(x: real, limit: real)
    requires limit >= 0.0
    ensures Abs(FoldComponent(x, limit)) <= Abs(x)
  {
    FoldComponentCases(x, limit);
  }

  /** A point inside the box `[-L, L]^3` is a fixed point of the box fold. */
  lemma BoxFoldFixesInnerBox(p: Vec3, limit: real)
    requires limit >= 0.0
    requires Abs(p.x) <= limit && Abs(p.y) <= limit && Abs(p.z) <= limit
    ensures BoxFold(p, limit) == p
  {
    FoldComponentCases(p.x, limit);
    FoldComponentCases(p.y, limit);
    FoldComponentCases(p.z, limit);
  }

  /**
   * `sphereFold`: inside the minimum radius the point is scaled by
   * `fixedRadius / minRadius`; between the radii it is inverted; outside
   * the fixed radius it is left alone. Both radii are compared with the
   * squared length `dot(p, p)`, as the shader does.
   */
  function SphereFold(p: Vec3, minRadius: real, fixedRadius: real): Vec3
    requires minRadius > 0.0
  {
    var r2 := Dot3(p, p);
    if r2 < minRadius then Scale3(p, fixedRadius / minRadius)
    else if r2 < fixedRadius then Scale3(p, fixedRadius / r2)
    else p
  }

  lemma SphereFoldKeepsOuter(p: Vec3, minRadius: real, fixedRadius: real)
    requires minRadius > 0.0
    requires Dot3(p, p) >= fixedRadius && Dot3(p, p) >= minRadius
    ensures SphereFold(p, minRadius, fixedRadius) == p
  {
  }

  /** With the shader's radii 0.5 and 1, the inner region is scaled by exactly 2. */
  lemma SphereFoldDoublesInner(p: Vec3)
    requires Dot3(p, p) < MinRadius
    ensures SphereFold(p, MinRadius, FixedRadius) == Scale3(p, 2.0)
  {
    assert FixedRadius / MinRadius == 2.0;
  }

  lemma ScaledDot(p: Vec3, k: real)
    ensures Dot3(Scale3(p, k), Scale3(p, k)) == k * k * Dot3(p, p)
  {
  }

  /**
   * Between the radii the fold is a sphere inversion: the squared lengths
   * before and after multiply to `fixedRadius^2`.
   */
  lemma SphereFoldInvertsBand(p: Vec3, minRadius: real, fixedRadius: real)
    requires minRadius > 0.0
    requires minRadius <= Dot3(p, p) < fixedRadius
    ensures var q := SphereFold(p, minRadius, fixedRadius);
      Dot3(q, q) * Dot3(p, p) == fixedRadius * fixedRadius
  {
    var r2 := Dot3(p, p);
    var k := fixedRadius / r2;
    ScaledDot(p, k);
    assert k * r2 == fixedRadius;
    assert k * k * r2 * r2 == (k * r2) * (k * r2);
  }

  /** One round of the loop: `z = boxFold(z); z = sphereFold(z); z = z * scale + p`. */
  function Round(z: Vec3, p: Vec3): Vec3
  {
    Add3(Scale3(SphereFold(BoxFold(z, FoldLimit), MinRadius, FixedRadius), Scale), p)
  }

  /** The point after `n` rounds started at `p`. */
  function Orbit(p: Vec3, n: nat): Vec3
  {
    if n == 0 then p else Round(Orbit(p, n - 1), p)
  }

  /** The derivative after `n` rounds: 1, then `dr * |scale| + 1`. */
  function Dr(n: nat): real
  {
    if n == 0 then 1.0 else Dr(n - 1) * Abs(Scale) + 1.0
  }

  /** `1.8^n`. */
  function PowScale(n: nat): real
  {
    if n == 0 then 1.0 else 1.8 * PowScale(n - 1)
  }

  lemma {:induction false} PowScaleAtLeastOne(n: nat)
    ensures PowScale(n) >= 1.0
  {
    if n > 0 {
      PowScaleAtLeastOne(n - 1);
    }
  }

  /** The recurrence has the closed form `dr_n = 2.25 * 1.8^n - 1.25`. */
  lemma {:induction false} DrClosedForm(n: nat)
    ensures Dr(n) == 2.25 * PowScale(n) - 1.25
  {
    if n > 0 {
      DrClosedForm(n - 1);
      assert Abs(Scale) == 1.8;
    }
  }

  /** Hence `dr >= 1` after any number of rounds, and the final `abs(dr)` is never 0. */
  lemma DrAtLeastOne(n: nat)
    ensures Dr(n) >= 1.0
  {
    DrClosedForm(n);
    PowScaleAtLeastOne(n);
  }

  /** The loop of `kleinian`: exactly twenty rounds, with no escape test. */
  method KleinianLoop(p: Vec3) returns (z: Vec3, dr: real)
    ensures z == Orbit(p, MaxIterations)
    ensures dr == Dr(MaxIterations) && dr >= 1.0
  {
    z := p;
    dr := 1.0;
    var scale, foldLimit, minRadius, fixedRadius := Scale, FoldLimit, MinRadius, FixedRadius;
    for i := 0 to MaxIterations
      invariant z == Orbit(p, i)
      invariant dr == Dr(i)
    {
      z := BoxFold(z, foldLimit);
      z := SphereFold(z, minRadius, fixedRadius);
      z := Add3(Scale3(z, scale), p);
      dr := dr * Abs(scale) + 1.0;
    }
    DrAtLeastOne(MaxIterations);
  }
}
