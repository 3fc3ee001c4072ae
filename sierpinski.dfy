/**
 * The Sierpinski fragment shader: a barycentric point-in-triangle test, and a
 * loop of at most 10 rounds that either finds the pixel in the removed middle
 * triangle or descends into the corner triangle that holds it.
 */
module Sierpinski {
  import opened Common
  import EscapeTime

  /** The fixed bound of the shader's `for` loop. */
  const MaxRounds: nat := 10

  function Sub2(p: Complex, q: Complex): Complex { Complex(p.re - q.re, p.im - q.im) }
  function Dot2(p: Complex, q: Complex): real { p.re * q.re + p.im * q.im }
  function Cross2(p: Complex, q: Complex): real { p.re * q.im - p.im * q.re }

  /** `(p + q) * 0.5`. */
  function Mid(p: Complex, q: Complex): Complex { Complex((p.re + q.re) * 0.5, (p.im + q.im) * 0.5) }

  /** `dot00 * dot11 - dot01 * dot01`, the quantity `inTriangle` divides by. */
  function Denominator(a: Complex, b: Complex, c: Complex): real
  {
    var v0, v1 := Sub2(c, a), Sub2(b, a);
    Dot2(v0, v0) * Dot2(v1, v1) - Dot2(v0, v1) * Dot2(v0, v1)
  }

  /** Twice the signed area of the triangle. */
  function Area2(a: Complex, b: Complex, c: Complex): real
  {
    Cross2(Sub2(c, a), Sub2(b, a))
  }

  /** Lagrange's identity: the divisor is the squared doubled area, zero exactly on degenerate triangles. */
  lemma DenominatorIsSquaredArea(a: Complex, b: Complex, c: Complex)
    ensures Denominator(a, b, c) == Area2(a, b, c) * Area2(a, b, c)
  {
    var v0, v1 := Sub2(c, a), Sub2(b, a);
    assert Dot2(v0, v0) * Dot2(v1, v1) - Dot2(v0, v1) * Dot2(v0, v1) == Cross2(v0, v1) * Cross2(v0, v1);
  }

  /** `inTriangle`: both barycentric coordinates are non-negative and sum to at most 1. */
  function InTriangle(p: Complex, a: Complex, b: Complex, c: Complex): bool
    requires Denominator(a, b, c) != 0.0
  {
    var v0, v1, v2 := Sub2(c, a), Sub2(b, a), Sub2(p, a);
    var dot00, dot01, dot02 := Dot2(v0, v0), Dot2(v0, v1), Dot2(v0, v2);
    var dot11, dot12 := Dot2(v1, v1), Dot2(v1, v2);
    var invDenom := 1.0 / (dot00 * dot11 - dot01 * dot01);
    var u := (dot11 * dot02 - dot01 * dot12) * invDenom;
    var v := (dot00 * dot12 - dot01 * dot02) * invDenom;
    u >= 0.0 && v >= 0.0 && u + v <= 1.0
  }

  /** Every vertex of a non-degenerate triangle passes the test. */
  lemma VerticesAreInside(a: Complex, b: Complex, c: Complex)
    requires Denominator(a, b, c) != 0.0
    ensures InTriangle(a, a, b, c) && InTriangle(b, a, b, c) && InTriangle(c, a, b, c)
  {
    var v0, v1 := Sub2(c, a), Sub2(b, a);
    var d := Denominator(a, b, c);
    assert Sub2(a, a) == Complex(0.0, 0.0);
    assert Sub2(b, a) == v1 && Sub2(c, a) == v0;
    // at b: u = 0 and v = d / d; at c: u = d / d and v = 0
    assert (Dot2(v0, v0) * Dot2(v1, v1) - Dot2(v0, v1) * Dot2(v0, v1)) * (1.0 / d) == 1.0;
  }

  /** A triangle given by its three vertices, named as the shader names them. */
  datatype Triangle = Triangle(a: Complex, b: Complex, c: Complex)

  /** The shader's starting triangle. */
  const Initial: Triangle := Triangle(Complex(0.0, 0.866), Complex(-1.0, -0.866), Complex(1.0, -0.866))

  /** The triangles `inTriangle` can be applied to: its divisor is not zero. */
  predicate NonDegenerate(t: Triangle) { Denominator(t.a, t.b, t.c) != 0.0 }

  function Inside(p: Complex, t: Triangle): bool
    requires NonDegenerate(t)
  {
    InTriangle(p, t.a, t.b, t.c)
  }

  /** The middle triangle `(mid_ab, mid_bc, mid_ca)` that a round removes. */
  function Middle(t: Triangle): Triangle { Triangle(Mid(t.a, t.b), Mid(t.b, t.c), Mid(t.c, t.a)) }

  /** The three corner triangles, each one old vertex and the two midpoints beside it. */
  function CornerA(t: Triangle): Triangle { Triangle(t.a, Mid(t.a, t.b), Mid(t.c, t.a)) }
  function CornerB(t: Triangle): Triangle { Triangle(Mid(t.a, t.b), t.b, Mid(t.b, t.c)) }
  function CornerC(t: Triangle): Triangle { Triangle(Mid(t.c, t.a), Mid(t.b, t.c), t.c) }

  /** Each of the four sub-triangles has a quarter of the parent's (signed) area. */
  lemma SubTrianglesQuarterArea(t: Triangle)
    ensures Area2(Middle(t).a, Middle(t).b, Middle(t).c) == Area2(t.a, t.b, t.c) / 4.0
    ensures Area2(CornerA(t).a, CornerA(t).b, CornerA(t).c) == Area2(t.a, t.b, t.c) / 4.0
    ensures Area2(CornerB(t).a, CornerB(t).b, CornerB(t).c) == Area2(t.a, t.b, t.c) / 4.0
    ensures Area2(CornerC(t).a, CornerC(t).b, CornerC(t).c) == Area2(t.a, t.b, t.c) / 4.0
  {
  }

  lemma QuarterAreaDenominator(s: Triangle, t: Triangle)
    requires Area2(s.a, s.b, s.c) == Area2(t.a, t.b, t.c) / 4.0
    ensures Denominator(s.a, s.b, s.c) == Denominator(t.a, t.b, t.c) / 16.0
  {
    DenominatorIsSquaredArea(s.a, s.b, s.c);
    DenominatorIsSquaredArea(t.a, t.b, t.c);
  }

  /** Subdividing keeps the triangles non-degenerate: each divisor is a sixteenth of the parent's. */
  lemma SubTrianglesNonDegenerate(t: Triangle)
    requires NonDegenerate(t)
    ensures NonDegenerate(Middle(t)) && NonDegenerate(CornerA(t))
    ensures NonDegenerate(CornerB(t)) && NonDegenerate(CornerC(t))
  {
    SubTrianglesQuarterArea(t);
    QuarterAreaDenominator(Middle(t), t);
    QuarterAreaDenominator(CornerA(t), t);
    QuarterAreaDenominator(CornerB(t), t);
    QuarterAreaDenominator(CornerC(t), t);
  }

  lemma InitialIsNonDegenerate()
    ensures NonDegenerate(Initial)
  {
    var v0 := Sub2(Initial.c, Initial.a);
    var v1 := Sub2(Initial.b, Initial.a);
    assert v0 == Complex(1.0, -1.732) && v1 == Complex(-1.0, -1.732);
    assert Dot2(v0, v0) == 3.999824 && Dot2(v1, v1) == 3.999824 && Dot2(v0, v1) == 1.999824;
  }

  /** What one round of the loop decides for the pixel. */
  datatype Round = Removed | Descend(next: Triangle) | Stray

  /**
   * One round: the middle test comes first; otherwise the first corner that
   * holds the pixel becomes the new triangle; a pixel in none of them stops
   * the loop.
   */
  function Choose(p: Complex, t: Triangle): (r: Round)
    requires NonDegenerate(t)
    ensures r.Descend? ==> r.next in {CornerA(t), CornerB(t), CornerC(t)} && NonDegenerate(r.next)
  {
    SubTrianglesNonDegenerate(t);
    if Inside(p, Middle(t)) then Removed
    else if Inside(p, CornerA(t)) then Descend(CornerA(t))
    else if Inside(p, CornerB(t)) then Descend(CornerB(t))
    else if Inside(p, CornerC(t)) then Descend(CornerC(t))
    else Stray
  }

  /** The outcome of the loop from round `i` on: whether the pixel was removed, and how many rounds ran. */
  datatype Outcome = Outcome(removed: bool, rounds: nat)

  function Carve(p: Complex, t: Triangle, i: nat, iterations: int): (o: Outcome)
    requires NonDegenerate(t)
    ensures i <= MaxRounds ==> o.rounds <= MaxRounds - i
    ensures o.rounds > 0 ==> i < iterations && o.rounds <= iterations - i
    decreases MaxRounds - i
  {
    if i >= MaxRounds || i >= iterations then Outcome(false, 0)
    else
      match Choose(p, t)
      case Removed => Outcome(true, 1)
      case Stray => Outcome(false, 1)
      case Descend(next) =>
        var o := Carve(p, next, i + 1, iterations);
        Outcome(o.removed, o.rounds + 1)
  }

  /** One round of `Carve`, for the loop's invariant. */
  lemma CarveRound(p: Complex, t: Triangle, i: nat, iterations: int)
    requires NonDegenerate(t) && i < MaxRounds && i < iterations
    ensures Carve(p, t, i, iterations).removed
      == (Choose(p, t).Removed? || (Choose(p, t).Descend? && Carve(p, Choose(p, t).next, i + 1, iterations).removed))
  {
  }

  /**
   * The body of `main`'s loop for the triangle `(a, b, c)`: compute the
   * three midpoints, report a pixel in the middle triangle as removed,
   * otherwise move to the first corner triangle that holds it, or stop.
   */
  method Subdivide(p: Complex, a: Complex, b: Complex, c: Complex)
    returns (removed: bool, stop: bool, a': Complex, b': Complex, c': Complex)
    requires NonDegenerate(Triangle(a, b, c))
    ensures removed <==> Choose(p, Triangle(a, b, c)).Removed?
    ensures !removed && !stop <==> Choose(p, Triangle(a, b, c)).Descend?
    ensures !removed && !stop ==> Triangle(a', b', c') == Choose(p, Triangle(a, b, c)).next
  {
    var t := Triangle(a, b, c);
    SubTrianglesNonDegenerate(t);
    removed, stop := false, false;
    a', b', c' := a, b, c;
    var midAB, midBC, midCA := Mid(a, b), Mid(b, c), Mid(c, a);
    assert Triangle(midAB, midBC, midCA) == Middle(t) && Triangle(a, midAB, midCA) == CornerA(t);
    assert Triangle(midAB, b, midBC) == CornerB(t) && Triangle(midCA, midBC, c) == CornerC(t);
    if Inside(p, Triangle(midAB, midBC, midCA)) {
      removed := true;
    } else if Inside(p, Triangle(a, midAB, midCA)) {
      b', c' := midAB, midCA;
    } else if Inside(p, Triangle(midAB, b, midBC)) {
      a', c' := midAB, midBC;
    } else if Inside(p, Triangle(midCA, midBC, c)) {
      a', b' := midCA, midBC;
    } else {
      stop := true;
    }
  }

  /**
   * The loop of `main`: `inside` starts as the test against the initial
   * triangle and is only ever cleared, when the pixel lies in a middle triangle.
   */
  method Classify(p: Complex, start: Triangle, iterations: int) returns (inside: bool)
    requires NonDegenerate(start)
    ensures inside == (Inside(p, start) && !Carve(p, start, 0, iterations).removed)
  {
    var a, b, c := start.a, start.b, start.c;
    inside := Inside(p, start);
    var i := 0;
    while i < MaxRounds
      invariant i <= MaxRounds
      invariant NonDegenerate(Triangle(a, b, c))
      invariant inside == Inside(p, start)
      invariant Carve(p, start, 0, iterations).removed == Carve(p, Triangle(a, b, c), i, iterations).removed
      decreases MaxRounds - i
    {
      if i >= iterations {
        break;
      }
      CarveRound(p, Triangle(a, b, c), i, iterations);
      var removed, stop;
      removed, stop, a, b, c := Subdivide(p, a, b, c);
      if removed {
        inside := false;
        break;
      }
      if stop {
        break;
      }
      i := i + 1;
    }
  }

  /** With no iterations the loop does nothing and the pixel is tested against the initial triangle only. */
  lemma NoIterationsKeepsInitialTest(p: Complex, iterations: int)
    requires iterations <= 0
    ensures NonDegenerate(Initial)
    ensures Carve(p, Initial, 0, iterations) == Outcome(false, 0)
  {
    InitialIsNonDegenerate();
  }

  /** The colour of `main`: white or the multiplier inside, black outside. */
  function Shade(inside: bool, insideBW: bool, colorMultiplier: Rgb): (color: Rgb)
    ensures !inside ==> color == Black
    ensures inside && insideBW ==> color == White
    ensures inside && !insideBW ==> color == colorMultiplier
  {
    if inside then (if insideBW then White else colorMultiplier) else Black
  }

  /** `main`: map the pixel, classify it and colour it. */
  method SierpinskiMain(frag: Complex, u: EscapeTime.ShaderUniforms, iterations: int) returns (color: Rgb)
    requires EscapeTime.ValidResolution(u)
    ensures var p := EscapeTime.PixelToPlane(frag, u.resolution, u.zoom, u.center);
      NonDegenerate(Initial) &&
      color == Shade(Inside(p, Initial) && !Carve(p, Initial, 0, iterations).removed, u.insideBW, u.colorMultiplier)
  {
    InitialIsNonDegenerate();
    var p := EscapeTime.PixelToPlane(frag, u.resolution, u.zoom, u.center);
    var inside := Classify(p, Initial, iterations);
    color := Shade(inside, u.insideBW, u.colorMultiplier);
  }
}
