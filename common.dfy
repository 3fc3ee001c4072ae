/**
 * Values shared by the shaders and the pages: points of the plane and of
 * space, the GLSL scalar built-ins used by the kernels, colours, and the
 * JavaScript `x || default` coercion the pages apply to user parameters.
 */
module Common {

  /** A point of the complex plane (a GLSL `vec2`). */
  datatype Complex = Complex(re: real, im: real)

  /** A point of space (a GLSL `vec3`). */
  datatype Vec3 = Vec3(x: real, y: real, z: real)

  /** An RGB colour, one real per channel. */
  datatype Rgb = Rgb(r: real, g: real, b: real)

  const Zero: Complex := Complex(0.0, 0.0)
  const Black: Rgb := Rgb(0.0, 0.0, 0.0)
  const White: Rgb := Rgb(1.0, 1.0, 1.0)

  function Abs(x: real): real { if x < 0.0 then -x else x }
  function Max(a: real, b: real): real { if a < b then b else a }
  function Min(a: real, b: real): real { if a < b then a else b }

  /** GLSL `clamp(x, lo, hi)`, i.e. `min(max(x, lo), hi)`. */
  function Clamp(x: real, lo: real, hi: real): real { Min(Max(x, lo), hi) }

  /** `v * v`; kept as a function so that the solver treats squares as terms. */
  function Sq(v: real): real { v * v }

  /** Squared modulus, the quantity every escape test compares with 4. */
  function Norm2(z: Complex): real { Sq(z.re) + Sq(z.im) }

  function Dot3(a: Vec3, b: Vec3): real { a.x * b.x + a.y * b.y + a.z * b.z }
  function Scale3(a: Vec3, k: real): Vec3 { Vec3(a.x * k, a.y * k, a.z * k) }
  function Add3(a: Vec3, b: Vec3): Vec3 { Vec3(a.x + b.x, a.y + b.y, a.z + b.z) }

  /** `k * colour`, GLSL's scalar-times-vector. */
  function ScaleRgb(c: Rgb, k: real): Rgb { Rgb(c.r * k, c.g * k, c.b * k) }

  /** An optional value. */
  datatype Option<T> = None | Some(value: T)

  /**
   * A number read from the page's stored parameters or from `parseFloat`:
   * absent (`undefined`), not a number, or an actual value.
   */
  datatype JsNumber = Undefined | NaN | Num(value: real)

  /** JavaScript truthiness of a number: everything but undefined, NaN and 0. */
  predicate Truthy(n: JsNumber) { n.Num? && n.value != 0.0 }

  /** `n || d`: the value when it is truthy, otherwise the default. */
  function OrDefault(n: JsNumber, d: real): real
  {
    if Truthy(n) then n.value else d
  }

  /** JavaScript's `hay.includes(needle)` on strings. */
  predicate Contains(hay: string, needle: string)
    decreases |hay|
  {
    |needle| <= |hay| && (hay[..|needle|] == needle || Contains(hay[1..], needle))
  }
}
