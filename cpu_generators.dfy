/**
 * The canvas generators of the stand-alone page: for every pixel of a
 * `width` x `height` canvas, in column-major order, run the escape loop with
 * cap 3000 from the seed `(xc, yc)` and record the pixel's colour.
 */
module CpuGenerators {
  import opened Common
  import opened EscapeTime

  /** `maxIteration` of the canvas generators. */
  const MaxIteration: nat := 3000

  /** The two generators; the page title decides which one runs. */
  datatype Generator = MandelbrotGenerator | BurningShipGenerator

  /** The recurrence each generator iterates. */
  function FamilyOf(g: Generator): Family
  {
    match g
    case MandelbrotGenerator => Quadratic
    case BurningShipGenerator => BurningShipCpu
  }

  /** The generator arguments: seed point and the three channel multipliers. */
  datatype Arguments = Arguments(xc: real, yc: real, rmul: real, gmul: real, bmul: real)

  /** The parameter defaults, used when the page first draws. */
  const DefaultArguments: Arguments := Arguments(0.0, 0.0, 1.0, 1.0, 1.0)

  /** A colour as the generator prints it: three numbers. */
  datatype CanvasColor = CanvasColor(r: real, g: real, b: real)

  /** One plotted pixel. */
  datatype Point = Point(x: nat, y: nat, color: CanvasColor)

  /** JavaScript's `Math.trunc` on a real. */
  function Trunc(v: real): (t: int)
    ensures v >= 0.0 ==> t as real <= v < t as real + 1.0
    ensures v < 0.0 ==> t as real - 1.0 < v <= t as real
  {
    if v >= 0.0 then v.Floor else -((-v).Floor)
  }

  /** JavaScript's `a % 256`: the remainder takes the sign of `a`. */
  function JsRem256(a: real): (r: real)
    ensures a >= 0.0 ==> 0.0 <= r < 256.0
    ensures a < 0.0 ==> -256.0 < r <= 0.0
    ensures ((a - r) / 256.0).Floor as real == (a - r) / 256.0
  {
    var q := Trunc(a / 256.0);
    assert a == 256.0 * q as real + (a - 256.0 * q as real);
    a - 256.0 * q as real
  }

  /** On a natural number, `% 256` in JavaScript is the Euclidean remainder. */
  lemma JsRemOnNaturals(n: nat)
    ensures JsRem256(n as real) == (n % 256) as real
  {
    var q, m := n / 256, n % 256;
    assert n == 256 * q + m;
    assert (n as real) / 256.0 == q as real + (m as real) / 256.0;
    assert (n as real / 256.0).Floor == q;
  }

  /** The colour of a pixel that stopped at `iteration`. */
  function ColorOf(iteration: nat, args: Arguments): (color: CanvasColor)
    ensures iteration == MaxIteration ==> color == CanvasColor(0.0, 0.0, 0.0)
    ensures iteration != MaxIteration && args.rmul >= 0.0 ==> 0.0 <= color.r < 256.0
    ensures iteration != MaxIteration && args.gmul >= 0.0 ==> 0.0 <= color.g < 256.0
    ensures iteration != MaxIteration && args.bmul >= 0.0 ==> 0.0 <= color.b < 256.0
  {
    if iteration == MaxIteration then CanvasColor(0.0, 0.0, 0.0)
    else
      var n := iteration as real;
      assert args.rmul >= 0.0 ==> n * args.rmul >= 0.0;
      assert args.gmul >= 0.0 ==> n * args.gmul >= 0.0;
      assert args.bmul >= 0.0 ==> n * args.bmul >= 0.0;
      CanvasColor(JsRem256(n * args.rmul), JsRem256(n * args.gmul), JsRem256(n * args.bmul))
  }

  /**
   * With a whole multiplier, an escaped pixel's channel `(iteration * mul) % 256`
   * is the remainder of the whole number `iteration * mul`, in 0..255.
   */
  lemma WholeMultiplierChannel(n: nat, m: nat)
    ensures JsRem256(n as real * m as real) == ((n * m) % 256) as real
    ensures 0 <= (n * m) % 256 <= 255
  {
    CastOfProduct(n, m);
    JsRemOnNaturals(n * m);
  }

  lemma CastOfProduct(a: nat, b: nat)
    ensures (a * b) as real == a as real * b as real
  {
  }

  /**
   * `p / n` for a pixel coordinate and a canvas side. The loops only divide
   * with `p < n`, so `n` is never 0 there; 0 stands in for that case.
   */
  function Ratio(p: nat, n: nat): (t: real)
    ensures p < n ==> 0.0 <= t < 1.0
  {
    if n == 0 then 0.0 else p as real / n as real
  }

  /**
   * The point of the plane a pixel stands for: the Mandelbrot generator spans
   * [-2, 0.47) x [-1.12, 1.12), the Burning Ship generator [-2, 2.5) x [-1.5, 2).
   */
  function DomainPoint(g: Generator, px: nat, py: nat, width: nat, height: nat): Complex
  {
    match g
    case MandelbrotGenerator =>
      Complex(Ratio(px, width) * (0.47 + 2.0) - 2.0, Ratio(py, height) * (1.12 + 1.12) - 1.12)
    case BurningShipGenerator =>
      Complex(Ratio(px, width) * (2.5 + 2.0) - 2.0, Ratio(py, height) * (2.0 + 1.5) - 1.5)
  }

  /** Pixels on the canvas map into the generator's window of the plane. */
  lemma DomainPointInWindow(g: Generator, px: nat, py: nat, width: nat, height: nat)
    requires px < width && py < height
    ensures g == MandelbrotGenerator ==>
      && -2.0 <= DomainPoint(g, px, py, width, height).re < 0.47
      && -1.12 <= DomainPoint(g, px, py, width, height).im < 1.12
    ensures g == BurningShipGenerator ==>
      && -2.0 <= DomainPoint(g, px, py, width, height).re < 2.5
      && -1.5 <= DomainPoint(g, px, py, width, height).im < 2.0
  {
    var s, t := Ratio(px, width), Ratio(py, height);
    assert 0.0 <= s * 2.47 < 2.47;
    assert 0.0 <= t * 2.24 < 2.24;
    assert 0.0 <= s * 4.5 < 4.5;
    assert 0.0 <= t * 3.5 < 3.5;
  }

  /** The point the generator records for pixel `(px, py)`. */
  function PixelPoint(g: Generator, args: Arguments, px: nat, py: nat, width: nat, height: nat): Point
  {
    var k := DomainPoint(g, px, py, width, height);
    Point(px, py, ColorOf(EscapeCount(FamilyOf(g), Complex(args.xc, args.yc), k, MaxIteration), args))
  }

  lemma MulAtLeast(a: int, h: nat)
    requires a >= 1
    ensures a * h >= h
  {
  }

  /** Entry `px * height + py` of a column-major buffer is pixel `(px, py)`. */
  lemma PixelIndex(px: nat, py: nat, height: nat)
    requires py < height
    ensures (px * height + py) / height == px && (px * height + py) % height == py
  {
    var n := px * height + py;
    var q, r := n / height, n % height;
    assert q * height + r == px * height + py;
    assert (q - px) * height == py - r;
    if q - px >= 1 {
      MulAtLeast(q - px, height);
    } else if px - q >= 1 {
      MulAtLeast(px - q, height);
    }
  }

  /** Pixel `(px, py)` of the canvas has an entry of the column-major buffer. */
  lemma PixelIndexInBounds(px: nat, py: nat, width: nat, height: nat)
    requires px < width && py < height
    ensures px * height + py < width * height
  {
    MulAtLeast(width - px, height);
    assert (width - px) * height == width * height - px * height;
  }

  /** The flat entry of pixel `(px, py)` is that pixel's value. */
  lemma ColumnMajorEntry<T>(width: nat, height: nat, points: seq<T>, pixel: (nat, nat) -> T, px: nat, py: nat)
    requires |points| == width * height
    requires forall i :: 0 <= i < |points| ==> points[i] == pixel(i / height, i % height)
    requires px < width && py < height
    ensures px * height + py < |points| && points[px * height + py] == pixel(px, py)
  {
    var i := px * height + py;
    PixelIndex(px, py, height);
    PixelIndexInBounds(px, py, width, height);
    assert points[i] == pixel(i / height, i % height);
  }

  /**
   * `mandelbrotGenerator` / `burningShipGenerator`: the outer loop runs over
   * columns, the inner one over rows, and each pixel's point is pushed.
   */
  method Generate(g: Generator, args: Arguments, width: nat, height: nat) returns (points: seq<Point>)
    ensures |points| == width * height
    ensures forall i :: 0 <= i < |points| ==> points[i] == PixelPoint(g, args, i / height, i % height, width, height)
  {
    points := [];
    var px := 0;
    while px < width
      invariant px <= width
      invariant |points| == px * height
      invariant forall i :: 0 <= i < |points| ==>
        points[i] == PixelPoint(g, args, i / height, i % height, width, height)
    {
      var py := 0;
      while py < height
        invariant py <= height
        invariant |points| == px * height + py
        invariant forall i :: 0 <= i < |points| ==>
          points[i] == PixelPoint(g, args, i / height, i % height, width, height)
      {
        var k := DomainPoint(g, px, py, width, height);
        var iteration, _ := EscapeLoop(FamilyOf(g), Complex(args.xc, args.yc), k, MaxIteration);
        PixelIndex(px, py, height);
        points := points + [Point(px, py, ColorOf(iteration, args))];
        py := py + 1;
      }
      px := px + 1;
    }
  }

  /**
   * The sidebar button: each input goes through `parseFloat(...) || d`, so a
   * missing, unparsable or zero multiplier becomes 1, 1 and 10, and a missing,
   * unparsable or zero seed coordinate becomes 0.
   */
  function ButtonArguments(r: JsNumber, g: JsNumber, b: JsNumber, x: JsNumber, y: JsNumber): (args: Arguments)
    ensures !Truthy(r) ==> args.rmul == 1.0
    ensures !Truthy(g) ==> args.gmul == 1.0
    ensures !Truthy(b) ==> args.bmul == 10.0
    ensures !Truthy(x) ==> args.xc == 0.0
    ensures !Truthy(y) ==> args.yc == 0.0
    ensures Truthy(r) ==> args.rmul == r.value
    ensures Truthy(g) ==> args.gmul == g.value
    ensures Truthy(b) ==> args.bmul == b.value
    ensures Truthy(x) ==> args.xc == x.value
    ensures Truthy(y) ==> args.yc == y.value
  {
    Arguments(OrDefault(x, 0.0), OrDefault(y, 0.0), OrDefault(r, 1.0), OrDefault(g, 1.0), OrDefault(b, 10.0))
  }

  /** A pixel of a zero seed under the first draw's defaults that reaches the cap is black. */
  lemma CappedPixelIsBlack(g: Generator, px: nat, py: nat, width: nat, height: nat)
    requires px < width && py < height
    requires EscapeCount(FamilyOf(g), Zero, DomainPoint(g, px, py, width, height), MaxIteration) == MaxIteration
    ensures PixelPoint(g, DefaultArguments, px, py, width, height).color == CanvasColor(0.0, 0.0, 0.0)
  {
  }
}
