/**
 * The quaternion Julia distance estimator: the Hamilton product, the square
 * built on it, and the loop of at most 16 steps that iterates `z := z^2 + c`
 * while tracking the running derivative `dr`.
 *
 * GLSL's `length` is a square root, which has no exact counterpart over the
 * reals used here; the loop is therefore stated on squared magnitudes: `r2`
 * is `r * r` and `dr2` is `dr * dr`. The shader's test `r > 2` is `r2 > 4`
 * (as `r >= 0`), and its update `dr := 2 * r * dr` is `dr2 := 4 * r2 * dr2`.
 */
module QuaternionJulia {
  import opened Common

  /** `MAX_ITERATIONS` of the estimator. */
  const MaxIterations: nat := 16

  /** A quaternion `x + y i + z j + w k` (a GLSL `vec4`). */
  datatype Quat = Quat(x: real, y: real, z: real, w: real)

  const One: Quat := Quat(1.0, 0.0, 0.0, 0.0)
  const I: Quat := Quat(0.0, 1.0, 0.0, 0.0)
  const J: Quat := Quat(0.0, 0.0, 1.0, 0.0)
  const K: Quat := Quat(0.0, 0.0, 0.0, 1.0)

  function QAdd(a: Quat, b: Quat): Quat { Quat(a.x + b.x, a.y + b.y, a.z + b.z, a.w + b.w) }
  function QNeg(a: Quat): Quat { Quat(-a.x, -a.y, -a.z, -a.w) }

  /** `qMul`: the Hamilton product. */
  function QMul(a: Quat, b: Quat): Quat
  {
    Quat(a.x * b.x - a.y * b.y - a.z * b.z - a.w * b.w,
         a.x * b.y + a.y * b.x + a.z * b.w - a.w * b.z,
         a.x * b.z - a.y * b.w + a.z * b.x + a.w * b.y,
         a.x * b.w + a.y * b.z - a.z * b.y + a.w * b.x)
  }

  /** `qSquare(q) = qMul(q, q)`. */
  function QSquare(q: Quat): Quat { QMul(q, q) }

  /** Squared length, `dot(q, q)`. */
  function Norm4(q: Quat): real { Sq(q.x) + Sq(q.y) + Sq(q.z) + Sq(q.w) }

  /** `(1, 0, 0, 0)` is a two-sided identity of the product. */
  lemma OneIsIdentity(q: Quat)
    ensures QMul(One, q) == q && QMul(q, One) == q
  {
  }

  /** The square has the closed form `(x^2 - y^2 - z^2 - w^2, 2xy, 2xz, 2xw)`. */
  lemma SquareClosedForm(q: Quat)
    ensures QSquare(q) == Quat(Sq(q.x) - Sq(q.y) - Sq(q.z) - Sq(q.w),
                               2.0 * q.x * q.y, 2.0 * q.x * q.z, 2.0 * q.x * q.w)
  {
  }

  /** Euler's four-square identity: the product multiplies squared lengths. */
  lemma NormIsMultiplicative(a: Quat, b: Quat)
    ensures Norm4(QMul(a, b)) == Norm4(a) * Norm4(b)
  {
    NormOfProduct(a, b);
    FourSquares(a.x, a.y, a.z, a.w, b.x, b.y, b.z, b.w);
  }

  /** `Norm4` of the product, written out component by component. */
  lemma NormOfProduct(a: Quat, b: Quat)
    ensures Norm4(QMul(a, b))
         == Sq(a.x * b.x - a.y * b.y - a.z * b.z - a.w * b.w) + Sq(a.x * b.y + a.y * b.x + a.z * b.w - a.w * b.z)
          + Sq(a.x * b.z - a.y * b.w + a.z * b.x + a.w * b.y) + Sq(a.x * b.w + a.y * b.z - a.z * b.y + a.w * b.x)
  {
  }

  /** The four-square identity on plain reals, components in the order of `QMul`. */
  lemma FourSquares(a1: real, a2: real, a3: real, a4: real, b1: real, b2: real, b3: real, b4: real)
    ensures Sq(a1 * b1 - a2 * b2 - a3 * b3 - a4 * b4) + Sq(a1 * b2 + a2 * b1 + a3 * b4 - a4 * b3)
          + Sq(a1 * b3 - a2 * b4 + a3 * b1 + a4 * b2) + Sq(a1 * b4 + a2 * b3 - a3 * b2 + a4 * b1)
         == (Sq(a1) + Sq(a2) + Sq(a3) + Sq(a4)) * (Sq(b1) + Sq(b2) + Sq(b3) + Sq(b4))
  {
    var p1 := a1 * b1 - a2 * b2 - a3 * b3 - a4 * b4;
    var p2 := a1 * b2 + a2 * b1 + a3 * b4 - a4 * b3;
    var p3 := a1 * b3 - a2 * b4 + a3 * b1 + a4 * b2;
    var p4 := a1 * b4 + a2 * b3 - a3 * b2 + a4 * b1;
    assert p1 * p1 + p2 * p2 + p3 * p3 + p4 * p4
        == (a1 * a1 + a2 * a2 + a3 * a3 + a4 * a4) * (b1 * b1 + b2 * b2 + b3 * b3 + b4 * b4);
  }

  /** The product is not commutative: `i j = k` but `j i = -k`. */
  lemma NotCommutative()
    ensures QMul(I, J) == K
    ensures QMul(J, I) == QNeg(K)
    ensures QMul(I, J) != QMul(J, I)
  {
    assert QMul(I, J) == Quat(0.0, 0.0, 0.0, 1.0);
    assert QMul(J, I) == Quat(0.0, 0.0, 0.0, -1.0);
  }

  /** `dr := 2 * r * dr`, squared on both sides. */
  function NextDr2(r2: real, dr2: real): real { 4.0 * r2 * dr2 }

  /** The state of the loop when it stops. */
  datatype Estimate = Estimate(z: Quat, r2: real, dr2: real, steps: nat)

  /**
   * The loop from step `i` on: `r2` is taken from `z` first, the loop stops
   * when it exceeds 4, and otherwise the derivative and the point are updated.
   */
  function Iterate(z: Quat, c: Quat, r2: real, dr2: real, i: nat): (e: Estimate)
    ensures i <= MaxIterations ==> i <= e.steps <= MaxIterations
    ensures e.steps < MaxIterations ==> e.r2 > 4.0 && e.r2 == Norm4(e.z)
    ensures dr2 == 0.0 ==> e.dr2 == 0.0
    decreases MaxIterations - i
  {
    if i >= MaxIterations then Estimate(z, r2, dr2, i)
    else
      var r2' := Norm4(z);
      if r2' > 4.0 then Estimate(z, r2', dr2, i)
      else Iterate(QAdd(QSquare(z), c), c, r2', NextDr2(r2', dr2), i + 1)
  }

  /** One pass of the loop: stop when `|z|^2 > 4`, otherwise update and go on. */
  lemma IteratePass(z: Quat, c: Quat, r2: real, dr2: real, i: nat)
    requires i < MaxIterations
    ensures Norm4(z) > 4.0 ==> Iterate(z, c, r2, dr2, i) == Estimate(z, Norm4(z), dr2, i)
    ensures Norm4(z) <= 4.0 ==>
      Iterate(z, c, r2, dr2, i) == Iterate(QAdd(QSquare(z), c), c, Norm4(z), NextDr2(Norm4(z), dr2), i + 1)
  {
  }

  /** `quaternionJulia`'s loop, started at `(p, 0)` with `dr = 1` and `r = 0`. */
  method JuliaLoop(p: Vec3, c: Quat) returns (e: Estimate)
    ensures e == Iterate(Quat(p.x, p.y, p.z, 0.0), c, 0.0, 1.0, 0)
  {
    var z := Quat(p.x, p.y, p.z, 0.0);
    var dr2 := 1.0;
    var r2 := 0.0;
    var i := 0;
    while i < MaxIterations
      invariant i <= MaxIterations
      invariant Iterate(z, c, r2, dr2, i) == Iterate(Quat(p.x, p.y, p.z, 0.0), c, 0.0, 1.0, 0)
      decreases MaxIterations - i
    {
      IteratePass(z, c, r2, dr2, i);
      r2 := Norm4(z);
      if r2 > 4.0 {
        break;
      }
      dr2 := NextDr2(r2, dr2);
      z := QAdd(QSquare(z), c);
      i := i + 1;
    }
    e := Estimate(z, r2, dr2, i);
  }

  /**
   * Once the orbit is at a point of norm 0 when a pass starts (as for `p` at
   * the origin, on the first pass), `dr` becomes 0 and stays 0, so the
   * estimate `0.5 * log(r) * r / dr` divides by zero.
   */
  lemma ZeroNormZeroesDerivative(z: Quat, c: Quat, r2: real, dr2: real, i: nat)
    requires i < MaxIterations && Norm4(z) == 0.0
    ensures Iterate(z, c, r2, dr2, i).dr2 == 0.0
  {
    IteratePass(z, c, r2, dr2, i);
    assert NextDr2(0.0, dr2) == 0.0;
  }
}
