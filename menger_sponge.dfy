/**
 * The Menger sponge distance estimator: start from the distance to the unit
 * box and, four times, fold space into a cell of side `2 / s`, measure the
 * distance to the cross removed from that cell, and keep the larger of the
 * two distances, with `s` tripling each round.
 *
 * The box distance `sdBox(p, vec3(1.0))` needs a square root; it is an
 * input of the loop here.
 */
module MengerSponge {
  import opened Common

  /** `ITERATIONS` of the estimator. */
  const Iterations: nat := 4

  /** GLSL `mod(x, 2.0)`, defined as `x - 2 * floor(x / 2)`. */
  function Mod2(x: real): (m: real)
    ensures 0.0 <= m < 2.0
  {
    x - 2.0 * (x / 2.0).Floor as real
  }

  /** `mod(v, 2.0) - 1.0` componentwise: the position inside the cell. */
  function Offsets(v: Vec3): (a: Vec3)
    ensures -1.0 <= a.x < 1.0 && -1.0 <= a.y < 1.0 && -1.0 <= a.z < 1.0
  {
    Vec3(Mod2(v.x) - 1.0, Mod2(v.y) - 1.0, Mod2(v.z) - 1.0)
  }

  /** One component of `abs(1.0 - 3.0 * abs(a))`. */
  function Crease(a: real): (r: real)
    requires -1.0 <= a <= 1.0
    ensures 0.0 <= r <= 2.0
  {
    Abs(1.0 - 3.0 * Abs(a))
  }

  function Creases(a: Vec3): (r: Vec3)
    requires -1.0 <= a.x <= 1.0 && -1.0 <= a.y <= 1.0 && -1.0 <= a.z <= 1.0
    ensures 0.0 <= r.x <= 2.0 && 0.0 <= r.y <= 2.0 && 0.0 <= r.z <= 2.0
  {
    Vec3(Crease(a.x), Crease(a.y), Crease(a.z))
  }

  /** `min(da, min(db, dc))` of the pairwise maxima `da`, `db`, `dc`. */
  function SmallestMax(r: Vec3): (m: real)
    ensures m == r.x || m == r.y || m == r.z
    ensures Min(r.x, Min(r.y, r.z)) <= m <= Max(r.x, Max(r.y, r.z))
  {
    Min(Max(r.x, r.y), Min(Max(r.y, r.z), Max(r.z, r.x)))
  }

  /** `3^n`, the value of `s` after `n` rounds. */
  function Pow3(n: nat): (s: real)
    ensures s >= 1.0
  {
    if n == 0 then 1.0 else Pow3(n - 1) * 3.0
  }

  /**
   * The term `c` of round `k`: the cell offsets of `p * 3^k`, their creases,
   * the smallest of the three pairwise maxima, shifted by 1 and divided by
   * the tripled scale `3^(k+1)`.
   */
  function Term(p: Vec3, k: nat): real
  {
    (SmallestMax(Creases(Offsets(Scale3(p, Pow3(k))))) - 1.0) / Pow3(k + 1)
  }

  /** The estimate from round `k` on, with `d` the distance so far. */
  function Sponge(p: Vec3, d: real, k: nat): real
    decreases Iterations - k
  {
    if k >= Iterations then d else Sponge(p, Max(d, Term(p, k)), k + 1)
  }

  lemma MulNonNegative(a: real, t: real)
    requires a >= 0.0 && t > 0.0
    ensures a * t >= 0.0
  {
  }

  lemma DivisionBounds(x: real, t: real)
    requires t > 0.0 && -1.0 <= x <= 1.0
    ensures -1.0 / t <= x / t <= 1.0 / t
  {
    var u := 1.0 / t;
    assert u > 0.0;
    assert x / t == x * u;
    MulNonNegative(1.0 - x, u);
    MulNonNegative(x + 1.0, u);
  }

  /** Each round's term lies in `[-1/s, 1/s]` for the tripled scale `s = 3^(k+1)`. */
  lemma TermBounds(p: Vec3, k: nat)
    ensures -1.0 / Pow3(k + 1) <= Term(p, k) <= 1.0 / Pow3(k + 1)
  {
    var m := SmallestMax(Creases(Offsets(Scale3(p, Pow3(k)))));
    DivisionBounds(m - 1.0, Pow3(k + 1));
  }

  /** `d` never decreases, so the estimate is at least the distance it started with. */
  lemma {:induction false} SpongeAtLeastStart(p: Vec3, d: real, k: nat)
    ensures Sponge(p, d, k) >= d
    decreases Iterations - k
  {
    if k < Iterations {
      SpongeAtLeastStart(p, Max(d, Term(p, k)), k + 1);
    }
  }

  /**
   * The loop of `mengerSponge`, started from the box distance `box`: four
   * rounds, `s` tripling in the middle of each.
   */
  method MengerLoop(p: Vec3, box: real) returns (d: real)
    ensures d == Sponge(p, box, 0)
    ensures d >= box
  {
    d := box;
    var s := 1.0;
    for i := 0 to Iterations
      invariant s == Pow3(i)
      invariant Sponge(p, d, i) == Sponge(p, box, 0)
    {
      var a := Offsets(Scale3(p, s));
      s := s * 3.0;
      var r := Creases(a);
      var da := Max(r.x, r.y);
      var db := Max(r.y, r.z);
      var dc := Max(r.z, r.x);
      var c := (Min(da, Min(db, dc)) - 1.0) / s;
      d := Max(d, c);
    }
    SpongeAtLeastStart(p, box, 0);
  }
}
