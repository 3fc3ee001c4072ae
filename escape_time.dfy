/**
 * The escape-time fragment shaders for the Mandelbrot set, Julia sets and the
 * Burning Ship. Each shader maps its pixel to a point of the plane, runs a
 * `while` loop that updates `x, y, x2, y2, iteration` until `x2 + y2 > 4` or
 * 300 steps, and colours the pixel from the final count.
 */
module EscapeTime {
  import opened Common

  /** The iteration cap of the interactive shaders. */
  const ShaderCap: nat := 300

  /**
   * The recurrence applied at each step: `z^2 + k` for Mandelbrot and Julia,
   * the shader's Burning Ship step (absolute values taken before squaring),
   * and the CPU Burning Ship step (absolute values taken after the update).
   */
  datatype Family = Quadratic | BurningShipShader | BurningShipCpu

  /** One step of the orbit with additive constant `k`. */
  function Step(f: Family, z: Complex, k: Complex): Complex
  {
    match f
    case Quadratic =>
      Complex(Sq(z.re) - Sq(z.im) + k.re, 2.0 * z.re * z.im + k.im)
    case BurningShipShader =>
      Complex(Sq(z.re) - Sq(z.im) + k.re, 2.0 * Abs(z.re) * Abs(z.im) + k.im)
    case BurningShipCpu =>
      Complex(Abs(Sq(z.re) - Sq(z.im) + k.re), Abs(2.0 * z.re * z.im) + k.im)
  }

  /** The `n`-th point of the orbit that starts at `z0`. */
  function Orbit(f: Family, z0: Complex, k: Complex, n: nat): Complex
  {
    if n == 0 then z0 else Step(f, Orbit(f, z0, k, n - 1), k)
  }

  lemma OrbitSucc(f: Family, z0: Complex, k: Complex, n: nat)
    ensures Orbit(f, z0, k, n + 1) == Step(f, Orbit(f, z0, k, n), k)
  {
  }

  /** The loop's exit test: the squared modulus exceeds 4. */
  predicate Escaped(z: Complex) { Norm2(z) > 4.0 }

  /** The count the loop reaches when it is at step `i` with point `z`. */
  function CountFrom(f: Family, z: Complex, k: Complex, i: nat, cap: nat): (n: nat)
    ensures i <= cap ==> i <= n <= cap
    decreases cap - i
  {
    if i >= cap || Escaped(z) then i else CountFrom(f, Step(f, z, k), k, i + 1, cap)
  }

  /** The final value of `iteration` for the orbit of `z0`. */
  function EscapeCount(f: Family, z0: Complex, k: Complex, cap: nat): (n: nat)
    ensures n <= cap
  {
    CountFrom(f, z0, k, 0, cap)
  }

  /** The count is the index of the first escaping orbit point, or the cap. */
  predicate IsFirstEscape(f: Family, z0: Complex, k: Complex, cap: nat, n: nat)
  {
    && n <= cap
    && (n < cap ==> Escaped(Orbit(f, z0, k, n)))
    && (forall i :: 0 <= i < n ==> !Escaped(Orbit(f, z0, k, i)))
  }

  lemma {:induction false} CountFromIsFirstEscape(f: Family, z0: Complex, k: Complex, i: nat, cap: nat)
    requires i <= cap
    requires forall j :: 0 <= j < i ==> !Escaped(Orbit(f, z0, k, j))
    ensures IsFirstEscape(f, z0, k, cap, CountFrom(f, Orbit(f, z0, k, i), k, i, cap))
    decreases cap - i
  {
    var z := Orbit(f, z0, k, i);
    if i < cap && !Escaped(z) {
      assert Orbit(f, z0, k, i + 1) == Step(f, z, k);
      CountFromIsFirstEscape(f, z0, k, i + 1, cap);
    }
  }

  /** The escape count is exactly the first-escape index (or the cap). */
  lemma EscapeCountIsFirstEscape(f: Family, z0: Complex, k: Complex, cap: nat)
    ensures IsFirstEscape(f, z0, k, cap, EscapeCount(f, z0, k, cap))
  {
    CountFromIsFirstEscape(f, z0, k, 0, cap);
  }

  /** Only one count satisfies the first-escape description. */
  lemma FirstEscapeIsUnique(f: Family, z0: Complex, k: Complex, cap: nat, n: nat, m: nat)
    requires IsFirstEscape(f, z0, k, cap, n) && IsFirstEscape(f, z0, k, cap, m)
    ensures n == m
  {
  }

  /**
   * The body of the escape loop: the family's update of `x` and `y`, written
   * as the shaders write it, with `x2, y2` the squares computed by the
   * previous pass (the CPU Burning Ship recomputes them).
   */
  method StepXY(f: Family, x: real, y: real, x2: real, y2: real, k: Complex) returns (x': real, y': real)
    requires x2 == Sq(x) && y2 == Sq(y)
    ensures Complex(x', y') == Step(f, Complex(x, y), k)
  {
    var z := Complex(x, y);
    match f {
      case Quadratic =>
        y' := 2.0 * x * y + k.im;
        x' := x2 - y2 + k.re;
        assert Step(f, z, k) == Complex(Sq(x) - Sq(y) + k.re, 2.0 * x * y + k.im);
      case BurningShipShader =>
        var absX, absY := Abs(x), Abs(y);
        y' := 2.0 * absX * absY + k.im;
        x' := x2 - y2 + k.re;
        assert Step(f, z, k) == Complex(Sq(x) - Sq(y) + k.re, 2.0 * absX * absY + k.im);
      case BurningShipCpu =>
        var xtemp := Sq(x) - Sq(y) + k.re;
        var product := 2.0 * x * y;
        y' := Abs(product) + k.im;
        x' := Abs(xtemp);
        assert product == 2.0 * z.re * z.im;
    }
  }

  /**
   * The shared escape loop of the three shaders: `x, y` start at `z0`,
   * `x2, y2` hold their squares, and each pass applies the family's step.
   */
  method EscapeLoop(f: Family, z0: Complex, k: Complex, cap: nat) returns (iteration: nat, z: Complex)
    ensures IsFirstEscape(f, z0, k, cap, iteration)
    ensures iteration == EscapeCount(f, z0, k, cap)
    ensures z == Orbit(f, z0, k, iteration)
  {
    var x, y := z0.re, z0.im;
    var x2, y2 := Sq(x), Sq(y);
    iteration := 0;
    while x2 + y2 <= 4.0 && iteration < cap
      invariant iteration <= cap
      invariant x2 == Sq(x) && y2 == Sq(y)
      invariant Complex(x, y) == Orbit(f, z0, k, iteration)
      invariant forall i :: 0 <= i < iteration ==> !Escaped(Orbit(f, z0, k, i))
      invariant CountFrom(f, Complex(x, y), k, iteration, cap) == EscapeCount(f, z0, k, cap)
      decreases cap - iteration
    {
      OrbitSucc(f, z0, k, iteration);
      x, y := StepXY(f, x, y, x2, y2, k);
      x2 := Sq(x);
      y2 := Sq(y);
      iteration := iteration + 1;
    }
    z := Complex(x, y);
  }

  /**
   * The pixel-to-plane mapping `(fragCoord / resolution - 0.5) * zoom + center`
   * of the Mandelbrot and Julia shaders.
   */
  function PixelToPlane(frag: Complex, resolution: Complex, zoom: real, center: Complex): Complex
    requires resolution.re > 0.0 && resolution.im > 0.0
  {
    Complex((frag.re / resolution.re - 0.5) * zoom + center.re,
            (frag.im / resolution.im - 0.5) * zoom + center.im)
  }

  /** The Burning Ship mapping, whose vertical offset is negated. */
  function PixelToPlaneFlipped(frag: Complex, resolution: Complex, zoom: real, center: Complex): Complex
    requires resolution.re > 0.0 && resolution.im > 0.0
  {
    Complex((frag.re / resolution.re - 0.5) * zoom + center.re,
            -(frag.im / resolution.im - 0.5) * zoom + center.im)
  }

  /** The pixel at the middle of the surface sees the view's centre. */
  lemma MiddlePixelSeesCenter(resolution: Complex, zoom: real, center: Complex)
    requires resolution.re > 0.0 && resolution.im > 0.0
    ensures PixelToPlane(Complex(resolution.re / 2.0, resolution.im / 2.0), resolution, zoom, center) == center
    ensures PixelToPlaneFlipped(Complex(resolution.re / 2.0, resolution.im / 2.0), resolution, zoom, center) == center
  {
    HalfOfItself(resolution.re);
    HalfOfItself(resolution.im);
  }

  lemma HalfOfItself(r: real)
    requires r > 0.0
    ensures (r / 2.0) / r == 0.5
  {
  }

  /** The flipped mapping mirrors the vertical pixel offset about the centre. */
  lemma FlippedMirrorsVertically(frag: Complex, resolution: Complex, zoom: real, center: Complex)
    requires resolution.re > 0.0 && resolution.im > 0.0
    ensures PixelToPlaneFlipped(frag, resolution, zoom, center).re == PixelToPlane(frag, resolution, zoom, center).re
    ensures PixelToPlaneFlipped(frag, resolution, zoom, center).im - center.im
         == -(PixelToPlane(frag, resolution, zoom, center).im - center.im)
  {
  }

  /** `float(iteration) / float(maxIteration)`, in [0, 1) for an escaped pixel. */
  function ExteriorScale(iteration: nat): (t: real)
    ensures iteration < ShaderCap ==> 0.0 <= t < 1.0
  {
    iteration as real / ShaderCap as real
  }

  /**
   * The colouring shared by the three shaders: a capped pixel is interior,
   * white or black; an escaped one is its scaled colour multiplier.
   */
  function Shade(iteration: nat, insideBW: bool, colorMultiplier: Rgb): (color: Rgb)
    ensures iteration == ShaderCap && insideBW ==> color == White
    ensures iteration == ShaderCap && !insideBW ==> color == Black
    ensures iteration != ShaderCap ==> color == ScaleRgb(colorMultiplier, ExteriorScale(iteration))
  {
    if iteration == ShaderCap then (if insideBW then White else Black)
    else ScaleRgb(colorMultiplier, ExteriorScale(iteration))
  }

  /** The uniforms every escape-time shader declares. */
  datatype ShaderUniforms = ShaderUniforms(
    resolution: Complex, center: Complex, zoom: real, colorMultiplier: Rgb, insideBW: bool)

  predicate ValidResolution(u: ShaderUniforms)
  {
    u.resolution.re > 0.0 && u.resolution.im > 0.0
  }

  /** Mandelbrot `main`: the orbit of 0 under `z^2 + c`, `c` the pixel's point. */
  method MandelbrotMain(frag: Complex, u: ShaderUniforms) returns (color: Rgb)
    requires ValidResolution(u)
    ensures color == Shade(EscapeCount(Quadratic, Zero,
                             PixelToPlane(frag, u.resolution, u.zoom, u.center), ShaderCap),
                           u.insideBW, u.colorMultiplier)
  {
    var c := PixelToPlane(frag, u.resolution, u.zoom, u.center);
    var iteration, _ := EscapeLoop(Quadratic, Zero, c, ShaderCap);
    color := Shade(iteration, u.insideBW, u.colorMultiplier);
  }

  /** Julia `main`: the orbit of the pixel's point under `z^2 + juliaC`. */
  method JuliaMain(frag: Complex, u: ShaderUniforms, juliaC: Complex) returns (color: Rgb)
    requires ValidResolution(u)
    ensures color == Shade(EscapeCount(Quadratic,
                             PixelToPlane(frag, u.resolution, u.zoom, u.center), juliaC, ShaderCap),
                           u.insideBW, u.colorMultiplier)
  {
    var z := PixelToPlane(frag, u.resolution, u.zoom, u.center);
    var iteration, _ := EscapeLoop(Quadratic, z, juliaC, ShaderCap);
    color := Shade(iteration, u.insideBW, u.colorMultiplier);
  }

  /** Burning Ship `main`: the orbit of 0 under the absolute-value step. */
  method BurningShipMain(frag: Complex, u: ShaderUniforms) returns (color: Rgb)
    requires ValidResolution(u)
    ensures color == Shade(EscapeCount(BurningShipShader, Zero,
                             PixelToPlaneFlipped(frag, u.resolution, u.zoom, u.center), ShaderCap),
                           u.insideBW, u.colorMultiplier)
  {
    var c := PixelToPlaneFlipped(frag, u.resolution, u.zoom, u.center);
    var iteration, _ := EscapeLoop(BurningShipShader, Zero, c, ShaderCap);
    color := Shade(iteration, u.insideBW, u.colorMultiplier);
  }

  // ---------------------------------------------------------------------
  // Properties of the recurrences

  lemma {:induction false} OrbitOfOriginStaysAtOrigin(n: nat)
    ensures Orbit(Quadratic, Zero, Zero, n) == Zero
  {
    if n > 0 {
      OrbitOfOriginStaysAtOrigin(n - 1);
    }
  }

  /** `c = 0` never escapes, so the Mandelbrot pixel reaches the cap. */
  lemma OriginIsInterior(cap: nat)
    ensures EscapeCount(Quadratic, Zero, Zero, cap) == cap
  {
    EscapeCountIsFirstEscape(Quadratic, Zero, Zero, cap);
    var n := EscapeCount(Quadratic, Zero, Zero, cap);
    if n < cap {
      OrbitOfOriginStaysAtOrigin(n);
    }
  }

  /** `c = 3 + 0i` leaves the disc after exactly one step. */
  lemma ThreeEscapesAfterOneStep(cap: nat)
    requires cap >= 1
    ensures EscapeCount(Quadratic, Zero, Complex(3.0, 0.0), cap) == 1
  {
    var c := Complex(3.0, 0.0);
    assert Orbit(Quadratic, Zero, c, 1) == c;
    EscapeCountIsFirstEscape(Quadratic, Zero, c, cap);
  }

  /** A Julia start point already outside the disc gets count 0, hence black. */
  lemma FarStartIsBlack(z0: Complex, k: Complex, insideBW: bool, colorMultiplier: Rgb)
    requires Escaped(z0)
    ensures EscapeCount(Quadratic, z0, k, ShaderCap) == 0
    ensures Shade(EscapeCount(Quadratic, z0, k, ShaderCap), insideBW, colorMultiplier) == Black
  {
  }

  lemma {:induction false} JuliaOrbitIsShiftedMandelbrot(c: Complex, n: nat)
    ensures Orbit(Quadratic, c, c, n) == Orbit(Quadratic, Zero, c, n + 1)
  {
    if n == 0 {
      assert Orbit(Quadratic, Zero, c, 1) == Step(Quadratic, Zero, c);
    } else {
      JuliaOrbitIsShiftedMandelbrot(c, n - 1);
    }
  }

  /** Starting one step later with one more step allowed adds one to the count. */
  lemma {:induction false} CountFromShift(f: Family, z: Complex, k: Complex, i: nat, cap: nat)
    ensures CountFrom(f, z, k, i + 1, cap + 1) == CountFrom(f, z, k, i, cap) + 1
    decreases cap - i
  {
    if i < cap && !Escaped(z) {
      CountFromShift(f, Step(f, z, k), k, i + 1, cap);
    }
  }

  /** A count that stopped before the cap does not move when the cap is raised. */
  lemma {:induction false} CountFromRaiseCap(f: Family, z: Complex, k: Complex, i: nat, cap: nat)
    requires CountFrom(f, z, k, i, cap) < cap
    ensures CountFrom(f, z, k, i, cap + 1) == CountFrom(f, z, k, i, cap)
    decreases cap - i
  {
    if i < cap && !Escaped(z) {
      CountFromRaiseCap(f, Step(f, z, k), k, i + 1, cap);
    }
  }

  /** An orbit that escaped before the cap escapes at the same step under any larger cap. */
  lemma EscapeCountRaiseCap(f: Family, z0: Complex, k: Complex, cap: nat)
    requires EscapeCount(f, z0, k, cap) < cap
    ensures EscapeCount(f, z0, k, cap + 1) == EscapeCount(f, z0, k, cap)
  {
    CountFromRaiseCap(f, z0, k, 0, cap);
  }

  /** The Mandelbrot orbit starts inside the disc. */
  lemma OriginNotEscaped()
    ensures !Escaped(Zero)
  {
  }

  /** The first step of the Mandelbrot orbit lands on the pixel's point. */
  lemma MandelbrotFirstStep(c: Complex)
    ensures Step(Quadratic, Zero, c) == c
  {
  }

  /**
   * A start point inside the disc costs one step: the count from it with one
   * more step allowed is one more than the count from its successor.
   */
  lemma CountAfterFirstStep(f: Family, z0: Complex, k: Complex, cap: nat)
    requires !Escaped(z0)
    ensures EscapeCount(f, z0, k, cap + 1) == EscapeCount(f, Step(f, z0, k), k, cap) + 1
  {
    CountFromShift(f, Step(f, z0, k), k, 0, cap);
  }

  lemma MandelbrotCountAfterFirstStep(c: Complex, cap: nat)
    ensures EscapeCount(Quadratic, Zero, c, cap + 1) == EscapeCount(Quadratic, Step(Quadratic, Zero, c), c, cap) + 1
  {
    OriginNotEscaped();
    CountAfterFirstStep(Quadratic, Zero, c, cap);
  }

  lemma JuliaCountIsCountAfterFirstStep(c: Complex, cap: nat)
    ensures EscapeCount(Quadratic, c, c, cap) == EscapeCount(Quadratic, Step(Quadratic, Zero, c), c, cap)
  {
    MandelbrotFirstStep(c);
  }

  /**
   * With `juliaC` equal to the pixel's point, the Julia count with cap `cap`
   * is one less than the Mandelbrot count with cap `cap + 1`.
   */
  lemma JuliaCountIsShiftedMandelbrot(c: Complex, cap: nat)
    ensures EscapeCount(Quadratic, c, c, cap) + 1 == EscapeCount(Quadratic, Zero, c, cap + 1)
  {
    MandelbrotCountAfterFirstStep(c, cap);
    JuliaCountIsCountAfterFirstStep(c, cap);
  }

  /** When the Mandelbrot pixel escapes at step `m`, the Julia pixel escapes at `m - 1`. */
  lemma JuliaEscapesOneStepEarlier(c: Complex)
    requires EscapeCount(Quadratic, Zero, c, ShaderCap) < ShaderCap
    ensures EscapeCount(Quadratic, Zero, c, ShaderCap) >= 1
    ensures EscapeCount(Quadratic, c, c, ShaderCap) == EscapeCount(Quadratic, Zero, c, ShaderCap) - 1
  {
    EscapeCountRaiseCap(Quadratic, Zero, c, ShaderCap);
    JuliaCountIsShiftedMandelbrot(c, ShaderCap);
  }

  /** The shader's Burning Ship step keeps `y >= c.y`, since `2|x||y| >= 0`. */
  lemma BurningShipStepAboveConstant(z: Complex, k: Complex)
    ensures Step(BurningShipShader, z, k).im >= k.im
  {
    assert Abs(z.re) * Abs(z.im) >= 0.0;
  }

  /** The shader's Burning Ship step only sees `|x|` and `|y|`. */
  lemma BurningShipStepIgnoresSigns(z: Complex, k: Complex)
    ensures Step(BurningShipShader, Complex(-z.re, z.im), k) == Step(BurningShipShader, z, k)
    ensures Step(BurningShipShader, Complex(z.re, -z.im), k) == Step(BurningShipShader, z, k)
  {
  }

  /** The CPU Burning Ship step: `x >= 0` afterwards and `y = |2xy| + y0`. */
  lemma CpuBurningShipStep(z: Complex, k: Complex)
    ensures Step(BurningShipCpu, z, k).re >= 0.0
    ensures Step(BurningShipCpu, z, k).im == Abs(2.0 * z.re * z.im) + k.im
    ensures Step(BurningShipCpu, z, k).im >= k.im
  {
  }
}
