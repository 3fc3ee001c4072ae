/**
 * The view controller of the three 3D pages: a zoom, a centre in space and
 * the camera angles `yaw` and `pitch`. The wheel zooms (in the opposite
 * direction to the 2D pages), a plain drag turns the camera with the pitch
 * held within [-90, 90], and a shift-drag moves the centre along z.
 */
module OrbitView {
  import opened Common
  import QuaternionJulia

  /** The 3D pages. */
  datatype Page3D = QuaternionJuliaPage | KleinianPage | MengerSpongePage

  const InitialZoom: real := 1.0
  const ZoomFactor: real := 1.1
  /** `ROTATION_SENSITIVITY`: degrees per pixel of drag. */
  const RotationSensitivity: real := 0.5
  const MinPitch: real := -90.0
  const MaxPitch: real := 90.0
  /** `canvas.height` of every 3D page. */
  const CanvasHeight: real := 400.0

  /** `handleWheel`'s factor: a negative `deltaY` zooms by 1.1, anything else by 1/1.1. */
  function WheelFactor(deltaY: real): (f: real)
    ensures f > 0.0
    ensures deltaY < 0.0 ==> f == 1.1
    ensures deltaY >= 0.0 ==> f * ZoomFactor == 1.0
  {
    if deltaY < 0.0 then ZoomFactor else 1.0 / ZoomFactor
  }

  /** `Math.max(MIN_PITCH, Math.min(MAX_PITCH, pitch))`. */
  function ClampPitch(pitch: real): (p: real)
    ensures MinPitch <= p <= MaxPitch
    ensures p == pitch <==> MinPitch <= pitch <= MaxPitch
    ensures pitch > MaxPitch ==> p == MaxPitch
    ensures pitch < MinPitch ==> p == MinPitch
  {
    Max(MinPitch, Min(MaxPitch, pitch))
  }

  /** The angle after a drag of `delta` pixels: it moves against the drag at 0.5 per pixel. */
  function Turn(angle: real, delta: real): real
  {
    angle - delta * RotationSensitivity
  }

  /** The yaw is never clamped, so consecutive turns add up to one turn over the whole drag. */
  lemma TurnsAdd(yaw: real, start: real, mid: real, pointer: real)
    ensures Turn(Turn(yaw, mid - start), pointer - mid) == Turn(yaw, pointer - start)
  {
  }

  /**
   * The pitch does not add up that way: it is clamped after each turn, so a
   * drag of 200 pixels up and 200 back down ends at -10, not at the start, 0.
   */
  lemma PitchDoesNotTelescope()
    ensures ClampPitch(Turn(ClampPitch(Turn(0.0, -200.0)), 200.0)) == -10.0
    ensures ClampPitch(Turn(0.0, 0.0)) == 0.0
  {
    assert Turn(0.0, -200.0) == 100.0;
    assert ClampPitch(100.0) == 90.0;
    assert Turn(90.0, 200.0) == -10.0;
  }

  /** The shift-drag update of `center.z`: with the drag, in units of the zoom per canvas height. */
  function Dolly(z: real, zoom: real, deltaY: real): real
  {
    z + deltaY / CanvasHeight * zoom
  }

  /** The state a 3D page keeps in its refs. */
  class OrbitView {
    const page: Page3D
    var zoom: real
    var center: Vec3
    var yaw: real
    var pitch: real
    var dragging: bool
    var startPos: Complex

    /** The zoom stays positive and the pitch within [-90, 90]. */
    predicate Valid()
      reads this
    {
      zoom > 0.0 && MinPitch <= pitch <= MaxPitch
    }

    constructor (page: Page3D)
      ensures Valid()
      ensures this.page == page && zoom == InitialZoom && center == Vec3(0.0, 0.0, 0.0)
      ensures yaw == 0.0 && pitch == 0.0 && !dragging && startPos == Zero
    {
      this.page := page;
      zoom := InitialZoom;
      center := Vec3(0.0, 0.0, 0.0);
      yaw, pitch := 0.0, 0.0;
      dragging := false;
      startPos := Zero;
    }

    /** `handleWheel`: scale the zoom; nothing else changes. */
    method Wheel(deltaY: real)
      requires Valid()
      modifies this
      ensures Valid()
      ensures zoom == old(zoom) * WheelFactor(deltaY)
      ensures center == old(center) && yaw == old(yaw) && pitch == old(pitch)
      ensures dragging == old(dragging) && startPos == old(startPos)
    {
      var multiplier := if deltaY < 0.0 then ZoomFactor else 1.0 / ZoomFactor;
      zoom := zoom * multiplier;
    }

    /** `handleMouseDown`: start dragging from the pointer. */
    method Down(clientX: real, clientY: real)
      requires Valid()
      modifies this
      ensures Valid()
      ensures dragging && startPos == Complex(clientX, clientY)
      ensures zoom == old(zoom) && center == old(center) && yaw == old(yaw) && pitch == old(pitch)
    {
      dragging := true;
      startPos := Complex(clientX, clientY);
    }

    /**
     * `handleMouseMove`: ignored unless dragging. With shift held only
     * `center.z` moves; otherwise only the angles turn, the pitch clamped.
     * Either way the drag restarts from the pointer.
     */
    method Move(clientX: real, clientY: real, shiftKey: bool)
      requires Valid()
      modifies this
      ensures Valid()
      ensures zoom == old(zoom) && dragging == old(dragging)
      ensures !old(dragging) ==>
        center == old(center) && yaw == old(yaw) && pitch == old(pitch) && startPos == old(startPos)
      ensures old(dragging) ==> startPos == Complex(clientX, clientY)
      ensures old(dragging) && shiftKey ==>
        && center == old(center).(z := Dolly(old(center).z, zoom, clientY - old(startPos).im))
        && yaw == old(yaw) && pitch == old(pitch)
      ensures old(dragging) && !shiftKey ==>
        && center == old(center)
        && yaw == Turn(old(yaw), clientX - old(startPos).re)
        && pitch == ClampPitch(Turn(old(pitch), clientY - old(startPos).im))
    {
      if !dragging {
        return;
      }
      var deltaX := clientX - startPos.re;
      var deltaY := clientY - startPos.im;
      if shiftKey {
        center := center.(z := center.z + deltaY / CanvasHeight * zoom);
      } else {
        yaw := yaw - deltaX * RotationSensitivity;
        pitch := pitch - deltaY * RotationSensitivity;
        pitch := Max(MinPitch, Min(MaxPitch, pitch));
      }
      startPos := Complex(clientX, clientY);
    }

    /** `handleMouseUp`, bound to both `mouseup` and `mouseout`: stop dragging. */
    method Up()
      requires Valid()
      modifies this
      ensures Valid()
      ensures !dragging
      ensures zoom == old(zoom) && center == old(center) && yaw == old(yaw) && pitch == old(pitch)
      ensures startPos == old(startPos)
    {
      dragging := false;
    }
  }

  /** The colour fallbacks of each 3D page's `params.r || d` chain. */
  function DefaultColor(page: Page3D): Rgb
  {
    match page
    case QuaternionJuliaPage => Rgb(0.8, 0.4, 1.0)
    case KleinianPage => Rgb(1.0, 0.7, 0.3)
    case MengerSpongePage => Rgb(1.0, 0.8, 0.6)
  }

  /** The `colorMultiplier` uniform: each stored channel if truthy, else the page's default. */
  function ColorUniform(page: Page3D, r: JsNumber, g: JsNumber, b: JsNumber): (c: Rgb)
    ensures Truthy(r) ==> c.r == r.value
    ensures Truthy(g) ==> c.g == g.value
    ensures Truthy(b) ==> c.b == b.value
    ensures !Truthy(r) ==> c.r == DefaultColor(page).r
    ensures !Truthy(g) ==> c.g == DefaultColor(page).g
    ensures !Truthy(b) ==> c.b == DefaultColor(page).b
  {
    var d := DefaultColor(page);
    Rgb(OrDefault(r, d.r), OrDefault(g, d.g), OrDefault(b, d.b))
  }

  /** The quaternion page's `juliaC`: a constant, not read from the stored parameters. */
  const JuliaC: QuaternionJulia.Quat := QuaternionJulia.Quat(-0.2, 0.6, 0.2, 0.2)
}
