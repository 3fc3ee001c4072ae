/**
 * The view controller the six 2D pages share: a zoom factor and a centre in
 * the plane, changed by the mouse wheel and by dragging, and the uniforms
 * each page hands its shader when it redraws.
 *
 * The pages differ only in constants: the starting view, the wheel factors
 * (Julia's are 1.1 and 0.9, the others' 1.1 and 1/1.1), the colour defaults,
 * the fixed iteration counts and Burning Ship's negated centre.
 */
module PanZoom {
  import opened Common
  import EscapeTime

  /** The 2D pages. */
  datatype Page2D = MandelbrotPage | JuliaPage | BurningShipPage | SierpinskiPage | KochSnowflakePage | BarnsleyFernPage

  /** `canvas.width` and `canvas.height` of every 2D page. */
  const CanvasWidth: real := 1200.0
  const CanvasHeight: real := 400.0

  /** `ZOOM_FACTOR`. */
  const ZoomFactor: real := 1.1

  /** `INITIAL_ZOOM`: 2.5, except 3 for the Koch snowflake and 5 for the fern. */
  function InitialZoom(page: Page2D): (zoom: real)
    ensures zoom > 0.0
  {
    match page
    case KochSnowflakePage => 3.0
    case BarnsleyFernPage => 5.0
    case _ => 2.5
  }

  /** The starting centre: the origin, except `(0, -2.5)` for the fern. */
  function InitialCenter(page: Page2D): Complex
  {
    if page == BarnsleyFernPage then Complex(0.0, -2.5) else Zero
  }

  /**
   * `handleWheel`'s factor: a positive `deltaY` zooms out by 1.1; anything
   * else (including 0) zooms in by 1/1.1, or by 0.9 on the Julia page.
   */
  function WheelFactor(page: Page2D, deltaY: real): (f: real)
    ensures f > 0.0
    ensures deltaY > 0.0 ==> f == 1.1
    ensures deltaY <= 0.0 && page == JuliaPage ==> f == 0.9
    ensures deltaY <= 0.0 && page != JuliaPage ==> f * ZoomFactor == 1.0
  {
    if deltaY > 0.0 then ZoomFactor
    else if page == JuliaPage then 0.9
    else 1.0 / ZoomFactor
  }

  /** On every page but Julia, a scroll down followed by a scroll up restores the zoom exactly. */
  lemma WheelDownUpRestores(page: Page2D, zoom: real, down: real, up: real)
    requires page != JuliaPage && down > 0.0 && up <= 0.0
    ensures zoom * WheelFactor(page, down) * WheelFactor(page, up) == zoom
  {
    assert WheelFactor(page, down) * WheelFactor(page, up) == 1.0;
  }

  /** On the Julia page the factors are not reciprocal: down then up leaves 0.99 of the zoom. */
  lemma JuliaWheelDownUpShrinks(zoom: real, down: real, up: real)
    requires down > 0.0 && up <= 0.0
    ensures zoom * WheelFactor(JuliaPage, down) * WheelFactor(JuliaPage, up) == 0.99 * zoom
  {
  }

  /**
   * `handleMouseMove`'s update of the centre for a pointer that moved from
   * `start` to `pointer` (client coordinates): x moves against the drag and
   * y with it, both in units of the zoom per canvas side.
   */
  function Pan(center: Complex, zoom: real, start: Complex, pointer: Complex): (c: Complex)
    ensures pointer == start ==> c == center
  {
    Complex(center.re - (pointer.re - start.re) / CanvasWidth * zoom,
            center.im + (pointer.im - start.im) / CanvasHeight * zoom)
  }

  /** Two consecutive moves equal one move from the first start to the last pointer. */
  lemma PanTelescopes(center: Complex, zoom: real, start: Complex, mid: Complex, pointer: Complex)
    ensures Pan(Pan(center, zoom, start, mid), zoom, mid, pointer) == Pan(center, zoom, start, pointer)
  {
    ShiftsAdd(mid.re - start.re, pointer.re - mid.re, CanvasWidth, zoom);
    ShiftsAdd(mid.im - start.im, pointer.im - mid.im, CanvasHeight, zoom);
  }

  lemma ShiftsAdd(a: real, b: real, side: real, zoom: real)
    requires side != 0.0
    ensures a / side * zoom + b / side * zoom == (a + b) / side * zoom
  {
    assert a / side + b / side == (a + b) / side;
  }

  /** The centre after a drag through `pointers`, each move starting where the previous ended. */
  function PanAll(center: Complex, zoom: real, start: Complex, pointers: seq<Complex>): Complex
    decreases |pointers|
  {
    if |pointers| == 0 then center
    else PanAll(Pan(center, zoom, start, pointers[0]), zoom, pointers[0], pointers[1..])
  }

  /** A whole drag depends only on where it was pressed and where it ended. */
  lemma {:induction false} PanAllIsOneMove(center: Complex, zoom: real, start: Complex, pointers: seq<Complex>)
    requires |pointers| > 0
    ensures PanAll(center, zoom, start, pointers) == Pan(center, zoom, start, pointers[|pointers| - 1])
    decreases |pointers|
  {
    if |pointers| > 1 {
      var c1 := Pan(center, zoom, start, pointers[0]);
      PanAllIsOneMove(c1, zoom, pointers[0], pointers[1..]);
      PanTelescopes(center, zoom, start, pointers[0], pointers[|pointers| - 1]);
    }
  }

  /** The view state a 2D page keeps in its refs. */
  class PanZoomView {
    const page: Page2D
    var zoom: real
    var center: Complex
    var dragging: bool
    var startPos: Complex

    /** The zoom stays positive. */
    predicate Valid()
      reads this
    {
      zoom > 0.0
    }

    constructor (page: Page2D)
      ensures Valid()
      ensures this.page == page && zoom == InitialZoom(page) && center == InitialCenter(page)
      ensures !dragging && startPos == Zero
    {
      this.page := page;
      zoom := InitialZoom(page);
      center := InitialCenter(page);
      dragging := false;
      startPos := Zero;
    }

    /** `handleWheel`: scale the zoom; nothing else changes. */
    method Wheel(deltaY: real)
      requires Valid()
      modifies this
      ensures Valid()
      ensures zoom == old(zoom) * WheelFactor(page, deltaY)
      ensures center == old(center) && dragging == old(dragging) && startPos == old(startPos)
    {
      var multiplier := if deltaY > 0.0 then ZoomFactor else if page == JuliaPage then 0.9 else 1.0 / ZoomFactor;
      zoom := zoom * multiplier;
    }

    /** `handleMouseDown`: start dragging from the pointer; the view is untouched. */
    method Down(clientX: real, clientY: real)
      requires Valid()
      modifies this
      ensures Valid()
      ensures dragging && startPos == Complex(clientX, clientY)
      ensures zoom == old(zoom) && center == old(center)
    {
      dragging := true;
      startPos := Complex(clientX, clientY);
    }

    /** `handleMouseMove`: ignored unless dragging; otherwise pan and restart from the pointer. */
    method Move(clientX: real, clientY: real)
      requires Valid()
      modifies this
      ensures Valid()
      ensures !old(dragging) ==>
        zoom == old(zoom) && center == old(center) && !dragging && startPos == old(startPos)
      ensures old(dragging) ==>
        && center == Pan(old(center), old(zoom), old(startPos), Complex(clientX, clientY))
        && startPos == Complex(clientX, clientY)
        && zoom == old(zoom) && dragging
    {
      if !dragging {
        return;
      }
      var deltaX := clientX - startPos.re;
      var deltaY := clientY - startPos.im;
      center := Complex(center.re - deltaX / CanvasWidth * zoom, center.im + deltaY / CanvasHeight * zoom);
      startPos := Complex(clientX, clientY);
    }

    /** `handleMouseUp`, bound to both `mouseup` and `mouseout`: stop dragging. */
    method Up()
      requires Valid()
      modifies this
      ensures Valid()
      ensures !dragging
      ensures zoom == old(zoom) && center == old(center) && startPos == old(startPos)
    {
      dragging := false;
    }
  }

  /** A press, a drag through `pointers` and a release pan the view by one move from press to release. */
  method Drag(v: PanZoomView, press: Complex, pointers: seq<Complex>)
    requires v.Valid() && |pointers| > 0
    modifies v
    ensures v.Valid() && !v.dragging && v.zoom == old(v.zoom)
    ensures v.center == Pan(old(v.center), v.zoom, press, pointers[|pointers| - 1])
  {
    v.Down(press.re, press.im);
    var i := 0;
    while i < |pointers|
      invariant 0 <= i <= |pointers|
      invariant v.Valid() && v.dragging && v.zoom == old(v.zoom)
      invariant v.startPos == if i == 0 then press else pointers[i - 1]
      invariant PanAll(v.center, v.zoom, v.startPos, pointers[i..]) == PanAll(old(v.center), v.zoom, press, pointers)
    {
      assert pointers[i..][1..] == pointers[i + 1..];
      v.Move(pointers[i].re, pointers[i].im);
      i := i + 1;
    }
    v.Up();
    PanAllIsOneMove(old(v.center), v.zoom, press, pointers);
  }

  // ---------------------------------------------------------------------
  // The uniforms of `renderFractal`

  /** The page's stored parameters, as read back from local storage. */
  datatype StoredParams = StoredParams(
    r: JsNumber, g: JsNumber, b: JsNumber, insideBW: bool,
    zr: JsNumber, zi: JsNumber, cr: JsNumber, ci: JsNumber)

  /**
   * The colour fallback of each page's `params.r || d` chain: 0 for the
   * escape-time pages, 1 for Sierpinski and Koch, `(0, 1, 0)` for the fern.
   */
  function DefaultColor(page: Page2D): Rgb
  {
    match page
    case SierpinskiPage => Rgb(1.0, 1.0, 1.0)
    case KochSnowflakePage => Rgb(1.0, 1.0, 1.0)
    case BarnsleyFernPage => Rgb(0.0, 1.0, 0.0)
    case _ => Rgb(0.0, 0.0, 0.0)
  }

  /** The `colorMultiplier` uniform: each stored channel if truthy, else the page's default. */
  function ColorUniform(page: Page2D, params: StoredParams): (c: Rgb)
    ensures Truthy(params.r) ==> c.r == params.r.value
    ensures Truthy(params.g) ==> c.g == params.g.value
    ensures Truthy(params.b) ==> c.b == params.b.value
    ensures !Truthy(params.r) ==> c.r == DefaultColor(page).r
    ensures !Truthy(params.g) ==> c.g == DefaultColor(page).g
    ensures !Truthy(params.b) ==> c.b == DefaultColor(page).b
  {
    var d := DefaultColor(page);
    Rgb(OrDefault(params.r, d.r), OrDefault(params.g, d.g), OrDefault(params.b, d.b))
  }

  /** The `center` uniform: Burning Ship sends `(x, -y)`, every other page the centre itself. */
  function CenterUniform(page: Page2D, center: Complex): (c: Complex)
    ensures c.re == center.re
    ensures page == BurningShipPage ==> c.im == -center.im
    ensures page != BurningShipPage ==> c == center
  {
    if page == BurningShipPage then Complex(center.re, -center.im) else center
  }

  /** The uniforms shared by the escape-time, Sierpinski and Koch shaders. */
  function Uniforms(page: Page2D, zoom: real, center: Complex, params: StoredParams): (u: EscapeTime.ShaderUniforms)
    ensures EscapeTime.ValidResolution(u)
    ensures u.zoom == zoom && u.insideBW == params.insideBW
  {
    EscapeTime.ShaderUniforms(Complex(CanvasWidth, CanvasHeight), CenterUniform(page, center), zoom,
                              ColorUniform(page, params), params.insideBW)
  }

  /** The `iterations` uniform of the Sierpinski and Koch pages: always 7 and 5, whatever is stored. */
  function IterationsUniform(page: Page2D): (n: int)
    requires page == SierpinskiPage || page == KochSnowflakePage
    ensures page == SierpinskiPage ==> n == 7
    ensures page == KochSnowflakePage ==> n == 5
  {
    if page == SierpinskiPage then 7 else 5
  }

  /** The Julia page's `juliaC`: the stored parts, falling back to `(-0.8, 0.156)`. */
  function JuliaCUniform(params: StoredParams): (c: Complex)
    ensures Truthy(params.cr) ==> c.re == params.cr.value
    ensures Truthy(params.ci) ==> c.im == params.ci.value
    ensures !Truthy(params.cr) ==> c.re == -0.8
    ensures !Truthy(params.ci) ==> c.im == 0.156
  {
    Complex(OrDefault(params.cr, -0.8), OrDefault(params.ci, 0.156))
  }

  /**
   * The Mandelbrot page's `initialZ`: the stored parts, falling back to 0.
   * The Mandelbrot shader declares no such uniform, so the value has no
   * effect: `EscapeTime.MandelbrotMain` always starts the orbit at 0.
   */
  function InitialZUniform(params: StoredParams): (z: Complex)
    ensures Truthy(params.zr) ==> z.re == params.zr.value
    ensures Truthy(params.zi) ==> z.im == params.zi.value
    ensures !Truthy(params.zr) ==> z.re == 0.0
    ensures !Truthy(params.zi) ==> z.im == 0.0
  {
    Complex(OrDefault(params.zr, 0.0), OrDefault(params.zi, 0.0))
  }

  /** The Burning Ship page's view, drawn through the flipped mapping, shows the pixel at the canvas centre at the view's centre. */
  lemma BurningShipCentreIsDrawnAtCentre(zoom: real, center: Complex, params: StoredParams)
    ensures var u := Uniforms(BurningShipPage, zoom, center, params);
      EscapeTime.PixelToPlaneFlipped(Complex(CanvasWidth / 2.0, CanvasHeight / 2.0), u.resolution, u.zoom, u.center)
        == Complex(center.re, -center.im)
  {
    var u := Uniforms(BurningShipPage, zoom, center, params);
    EscapeTime.MiddlePixelSeesCenter(u.resolution, u.zoom, u.center);
  }
}
