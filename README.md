# Fractal viewer: a verified model of its evaluators and view controllers

This project models the computational core of a React/WebGL fractal viewer in
Dafny:

- the escape-time fragment shaders (Mandelbrot, Julia, Burning Ship) and the
  Sierpinski subdivision shader, down to the colour each pixel gets;
- the stand-alone canvas generators (`mandelbrotGenerator`,
  `burningShipGenerator`) with their column-major pixel order, JavaScript
  remainder colouring and `parseFloat(...) || d` defaults;
- the 3D distance estimators: quaternion Julia (with the Hamilton product),
  the Kleinian box and sphere folds, and the Menger sponge. It also covers the
  sphere-tracing loop the three 3D shaders share;
- the Barnsley fern's histogram generator, writing a 512 x 512 byte buffer in
  place;
- the view controllers:
  - the pan/zoom state of the six 2D pages, as a class whose methods are the
    wheel and mouse handlers;
  - the orbit camera of the three 3D pages, with the pitch clamped to
    [-90, 90];
  - the uniforms each page hands its shader;
- the interface logic around them:
  - the image carousel's ring of slides;
  - the search bar's filter and exact match;
  - the card's equation formatter and click guard;
  - the description page's compact-mode toggle.

Floating-point values are modelled as mathematical reals. Loops that the code
runs step by step are `method`s with loop invariants. Each is proved equal to
a recursive function that defines its result, and the properties are proved
about that function. `Math.random` becomes a sequence of draws given as input. The
distance estimator that `rayMarch` calls becomes a function parameter.

Several behaviours differ from page to page, and the model keeps each as the
code has it:

- **Colour multipliers.** A falsy stored channel falls back to a per-page default:
  - 0 on the escape-time pages (Mandelbrot.jsx:66, Julia.jsx:42, BurningShip.jsx:61);
  - 1 on Sierpinski and Koch (Sierpinski.jsx:67, KochSnowflake.jsx:67);
  - (0, 1, 0) on the fern (BarnsleyFern.jsx:115);
  - (0.8, 0.4, 1.0), (1.0, 0.7, 0.3) and (1.0, 0.8, 0.6) on the quaternion,
    Kleinian and Menger pages (QuaternionJulia.jsx:75-79, Kleinian.jsx:76-78,
    MengerSponge.jsx:76-78);
  - 1, 1 and 10 on the canvas generator's button (index.js:99-104).
- **No initial Z in the Mandelbrot shader.** The Mandelbrot page sends an
  `initialZ` uniform (Mandelbrot.jsx:68-72), but the shader declares none
  (Mandelbrot-frag.js:5-9) and starts every orbit at 0 (Mandelbrot-frag.js:13).
- **Julia wheel factor.** The Julia page zooms by 1.1 or 0.9 (Julia.jsx:92);
  the other 2D pages zoom by 1.1 or 1/1.1 (Mandelbrot.jsx:120).
- **3D wheel direction.** The 3D pages multiply the zoom by 1.1 when `deltaY`
  is negative (QuaternionJulia.jsx:134); the 2D pages do so when it is
  positive (Mandelbrot.jsx:120).

## Model

| member | source | states |
|---|---|---|
| EscapeTime.Step | src/utils/shaders/Mandelbrot-frag.js:19-22 | one pass of the loop body for each family (also Burningship-frag.js:26-33 and index.js:58-60); StepXY proves the shaders' in-place update computes it, and BurningShipStepAboveConstant, BurningShipStepIgnoresSigns and CpuBurningShipStep characterise the Burning Ship variants |
| EscapeTime.Orbit | src/utils/shaders/Mandelbrot-frag.js:13-23 | the point after `n` passes; OrbitOfOriginStaysAtOrigin and JuliaOrbitIsShiftedMandelbrot characterise it |
| EscapeTime.IsFirstEscape | src/utils/shaders/Mandelbrot-frag.js:18 | the loop condition's exit description: the count is the first escaping index, or the cap with no escape before it; EscapeCountIsFirstEscape and FirstEscapeIsUnique tie it to the count |
| EscapeTime.PixelToPlane | src/utils/shaders/Mandelbrot-frag.js:12 | `(gl_FragCoord / resolution - 0.5) * zoom + center`; MiddlePixelSeesCenter characterises it |
| EscapeTime.PixelToPlaneFlipped | src/utils/shaders/Burningship-frag.js:12-15 | the same mapping with the vertical offset negated; FlippedMirrorsVertically and MiddlePixelSeesCenter characterise it |
| EscapeTime.CountFrom | src/utils/shaders/Mandelbrot-frag.js:18-24 | the loop, entered at step `i` not above the cap, ends with a count between `i` and the cap |
| EscapeTime.EscapeCount | src/utils/shaders/Mandelbrot-frag.js:15-24 | the final `iteration` never exceeds `maxIteration` |
| EscapeTime.EscapeCountIsFirstEscape | src/utils/shaders/Mandelbrot-frag.js:18-24 | the count is the index of the first orbit point with `x2 + y2 > 4`; no earlier point escaped, and a count below the cap means the point escaped |
| EscapeTime.FirstEscapeIsUnique | src/utils/shaders/Mandelbrot-frag.js:18 | at most one count meets the first-escape description |
| EscapeTime.StepXY | src/utils/shaders/Burningship-frag.js:26-33 | the loop body (quadratic, Burning Ship with `abs` before the update, canvas Burning Ship with `abs` after it) computes exactly one step of the family's recurrence from `x, y` and their squares |
| EscapeTime.EscapeLoop | src/utils/shaders/Mandelbrot-frag.js:13-24 | the shared `while` loop ends at the first escape or the cap: its count is `EscapeCount` and its `x, y` are the orbit point reached |
| EscapeTime.MiddlePixelSeesCenter | src/utils/shaders/Mandelbrot-frag.js:12 | the pixel at the middle of the surface maps to `center`, under both the plain and the y-flipped mapping |
| EscapeTime.FlippedMirrorsVertically | src/utils/shaders/Burningship-frag.js:12-15 | the Burning Ship mapping keeps x and mirrors the vertical offset from the centre |
| EscapeTime.ExteriorScale | src/utils/shaders/Mandelbrot-frag.js:29 | `iteration / maxIteration` lies in [0, 1) for an escaped pixel |
| EscapeTime.Shade | src/utils/shaders/Mandelbrot-frag.js:26-32 | a capped pixel is white with `insideBW`, else black; an escaped pixel is the multiplier scaled by `iteration / 300` |
| EscapeTime.MandelbrotMain | src/utils/shaders/Mandelbrot-frag.js:11-33 | the colour is the shading of the count of the orbit of 0 under `z^2 + c`, `c` the pixel's point; no initial-Z input exists |
| EscapeTime.JuliaMain | src/utils/shaders/Julia-frag.js:12-40 | the colour is the shading of the count of the pixel's point under `z^2 + juliaC` |
| EscapeTime.BurningShipMain | src/utils/shaders/Burningship-frag.js:11-45 | the colour is the shading of the Burning Ship count of 0, for the point from the flipped mapping |
| EscapeTime.OrbitOfOriginStaysAtOrigin | src/utils/shaders/Mandelbrot-frag.js:13-23 | for `c = 0` every orbit point is 0 |
| EscapeTime.OriginIsInterior | src/utils/shaders/Mandelbrot-frag.js:13-26 | for `c = 0` the count reaches the cap, so the pixel is interior |
| EscapeTime.ThreeEscapesAfterOneStep | src/utils/shaders/Mandelbrot-frag.js:18-23 | for `c = 3 + 0i` the loop stops after exactly one step |
| EscapeTime.FarStartIsBlack | src/utils/shaders/Julia-frag.js:16-38 | a Julia start point already outside the disc gets count 0 and is drawn black |
| EscapeTime.JuliaOrbitIsShiftedMandelbrot | src/utils/shaders/Julia-frag.js:14-31 | with `juliaC` equal to the pixel's point, the Julia orbit is the Mandelbrot orbit one step later |
| EscapeTime.EscapeCountRaiseCap | src/utils/shaders/Mandelbrot-frag.js:18 | a count that stopped before the cap is unchanged by a larger cap |
| EscapeTime.CountAfterFirstStep | src/utils/shaders/Mandelbrot-frag.js:18-23 | from a start inside the disc, the count with one more step allowed is one more than the count from the next point |
| EscapeTime.JuliaCountIsShiftedMandelbrot | src/utils/shaders/Julia-frag.js:14-31 | the Julia count with cap `n`, plus one, is the Mandelbrot count with cap `n + 1` |
| EscapeTime.JuliaEscapesOneStepEarlier | src/utils/shaders/Julia-frag.js:25-31 | a Mandelbrot pixel escaping at step `m < 300` has `m >= 1`, and the matching Julia pixel escapes at `m - 1` |
| EscapeTime.BurningShipStepAboveConstant | src/utils/shaders/Burningship-frag.js:26-29 | the shader's step never puts `y` below `c.y` |
| EscapeTime.BurningShipStepIgnoresSigns | src/utils/shaders/Burningship-frag.js:26-30 | flipping the sign of `x` or of `y` does not change the shader's step |
| EscapeTime.CpuBurningShipStep | index.js:58-60 | the canvas step leaves `x >= 0` and sets `y = abs(2xy) + y0 >= y0` |
| CpuGenerators.FamilyOf | index.js:22-27 | the Mandelbrot generator iterates the quadratic map, the Burning Ship generator the map of lines 58-60 (CpuBurningShipStep) |
| CpuGenerators.DomainPoint | index.js:15-16 | the pixel's point of the plane, and lines 50-51 for Burning Ship; DomainPointInWindow bounds it |
| CpuGenerators.PixelPoint | index.js:18-37 | the point pushed for a pixel: its coordinates and the colour of its escape count; Generate and CappedPixelIsBlack use it |
| CpuGenerators.Trunc | index.js:33-35 | truncation toward zero: within one of the value, on the side of zero |
| CpuGenerators.JsRem256 | index.js:33-35 | JavaScript's `% 256` keeps the sign of the dividend, has magnitude below 256 and differs from the dividend by a whole multiple of 256 |
| CpuGenerators.JsRemOnNaturals | index.js:33-35 | on a natural number `% 256` is the ordinary remainder |
| CpuGenerators.ColorOf | index.js:30-35 | a capped pixel is (0, 0, 0); otherwise each channel with a non-negative multiplier lies in [0, 256) |
| CpuGenerators.WholeMultiplierChannel | index.js:33-35 | with a whole multiplier a channel is the remainder of the whole product, in 0..255 |
| CpuGenerators.Ratio | index.js:15-16 | `p / n` lies in [0, 1) for a pixel on the canvas |
| CpuGenerators.DomainPointInWindow | index.js:15-16 | canvas pixels map into [-2, 0.47) x [-1.12, 1.12) for Mandelbrot and into [-2, 2.5) x [-1.5, 2) for Burning Ship (lines 50-51) |
| CpuGenerators.PixelIndex | index.js:12-37 | the column-major position `px * height + py` gives back `px` by division by `height` and `py` as the remainder |
| CpuGenerators.PixelIndexInBounds | index.js:12-13 | every canvas pixel's position is below `width * height` |
| CpuGenerators.ColumnMajorEntry | index.js:12-37 | entry `px * height + py` of the generated list is the point of pixel `(px, py)` |
| CpuGenerators.Generate | index.js:9-42 | the nested loops push exactly `width * height` points in column-major order, each the escape colour of its pixel with cap 3000 from `(xc, yc)` |
| CpuGenerators.ButtonArguments | index.js:99-104 | a falsy input falls back to 1, 1, 10 for the multipliers and 0 for the seed; a truthy input is used as read |
| CpuGenerators.CappedPixelIsBlack | index.js:30-32 | under the first draw's arguments, a pixel reaching 3000 is coloured (0, 0, 0) |
| Sierpinski.InTriangle | src/utils/shaders/Sierpinski-frag.js:17-33 | the barycentric test `u >= 0, v >= 0, u + v <= 1`, defined for a non-zero divisor; VerticesAreInside and DenominatorIsSquaredArea characterise it |
| Sierpinski.Inside | src/utils/shaders/Sierpinski-frag.js:43 | `inTriangle` applied to a triangle value; Classify starts from it |
| Sierpinski.Middle | src/utils/shaders/Sierpinski-frag.js:49-53 | the triangle of the three midpoints; SubTrianglesQuarterArea and SubTrianglesNonDegenerate characterise it |
| Sierpinski.CornerA | src/utils/shaders/Sierpinski-frag.js:59-61 | the corner triangle at `a`, with a quarter of the area (SubTrianglesQuarterArea) |
| Sierpinski.CornerB | src/utils/shaders/Sierpinski-frag.js:62-64 | the corner triangle at `b`, with a quarter of the area (SubTrianglesQuarterArea) |
| Sierpinski.CornerC | src/utils/shaders/Sierpinski-frag.js:65-67 | the corner triangle at `c`, with a quarter of the area (SubTrianglesQuarterArea) |
| Sierpinski.DenominatorIsSquaredArea | src/utils/shaders/Sierpinski-frag.js:18-28 | `inTriangle`'s divisor equals the squared doubled area, so it is zero exactly for degenerate triangles |
| Sierpinski.VerticesAreInside | src/utils/shaders/Sierpinski-frag.js:17-33 | for a non-degenerate triangle, `inTriangle` holds at each vertex |
| Sierpinski.SubTrianglesQuarterArea | src/utils/shaders/Sierpinski-frag.js:49-68 | the middle triangle and each corner triangle have a quarter of the parent's signed area |
| Sierpinski.SubTrianglesNonDegenerate | src/utils/shaders/Sierpinski-frag.js:49-68 | subdividing a non-degenerate triangle yields non-degenerate triangles, so every division in the loop is defined |
| Sierpinski.InitialIsNonDegenerate | src/utils/shaders/Sierpinski-frag.js:39-43 | the starting triangle's divisor is not zero |
| Sierpinski.Choose | src/utils/shaders/Sierpinski-frag.js:53-70 | a round that continues moves to one of the three corner triangles, which is non-degenerate |
| Sierpinski.Carve | src/utils/shaders/Sierpinski-frag.js:46-71 | the loop runs at most `min(10, iterations)` rounds and none when `iterations <= 0` |
| Sierpinski.Subdivide | src/utils/shaders/Sierpinski-frag.js:49-70 | one pass reports removal exactly for a pixel in the middle triangle, otherwise moves to the first corner holding the pixel, otherwise stops |
| Sierpinski.Classify | src/utils/shaders/Sierpinski-frag.js:43-71 | `inside` is the initial-triangle test, cleared only when some round finds the pixel in a middle triangle |
| Sierpinski.NoIterationsKeepsInitialTest | src/utils/shaders/Sierpinski-frag.js:43-47 | with `iterations <= 0` no round runs and nothing is removed |
| Sierpinski.Shade | src/utils/shaders/Sierpinski-frag.js:73-78 | inside pixels are white with `insideBW`, else the multiplier; outside pixels are black |
| Sierpinski.SierpinskiMain | src/utils/shaders/Sierpinski-frag.js:35-79 | the colour is the shading of the classification of the pixel's point, so a point outside the initial triangle is never coloured |
| QuaternionJulia.QMul | src/utils/shaders/QuaternionJulia-frag.js:37-44 | the Hamilton product; OneIsIdentity, NormIsMultiplicative and NotCommutative characterise it |
| QuaternionJulia.QSquare | src/utils/shaders/QuaternionJulia-frag.js:47-49 | `qMul(q, q)`; SquareClosedForm gives its closed form |
| QuaternionJulia.OneIsIdentity | src/utils/shaders/QuaternionJulia-frag.js:37-44 | (1, 0, 0, 0) is a two-sided identity of `qMul` |
| QuaternionJulia.SquareClosedForm | src/utils/shaders/QuaternionJulia-frag.js:38-49 | `qSquare(x, y, z, w) = (x^2 - y^2 - z^2 - w^2, 2xy, 2xz, 2xw)` |
| QuaternionJulia.NormIsMultiplicative | src/utils/shaders/QuaternionJulia-frag.js:36-44 | the squared length of a product is the product of the squared lengths |
| QuaternionJulia.NotCommutative | src/utils/shaders/QuaternionJulia-frag.js:38-43 | `i j = k` but `j i = -k` |
| QuaternionJulia.Iterate | src/utils/shaders/QuaternionJulia-frag.js:58-67 | at most 16 passes; stopping early means the squared norm exceeded 4; a zero derivative stays zero |
| QuaternionJulia.JuliaLoop | src/utils/shaders/QuaternionJulia-frag.js:52-67 | the loop from `(p, 0)` with `dr = 1` ends in the state `Iterate` describes |
| QuaternionJulia.ZeroNormZeroesDerivative | src/utils/shaders/QuaternionJulia-frag.js:59-69 | once a pass starts at a point of norm 0 (the origin, for `p = 0`), `dr` ends at 0 and the estimate divides by zero |
| RayMarch.Stops | src/utils/shaders/QuaternionJulia-frag.js:79 | the break test `dist < EPSILON \|\| depth > MAX_DIST`; MarchFrom stops early only when it holds |
| RayMarch.Advance | src/utils/shaders/QuaternionJulia-frag.js:76-78 | the new depth, the old one plus the step fraction of the estimate (0.5 here and at Kleinian-frag.js:76, 1 at MengerSponge-frag.js:66) |
| RayMarch.Trace | src/utils/shaders/QuaternionJulia-frag.js:73-82 | the march from depth 0; RayMarch equals it, and FirstHitStopsAtOnce and MissStopsBeyondFarLimit characterise it |
| RayMarch.MarchFrom | src/utils/shaders/QuaternionJulia-frag.js:73-81 | at most 100 estimates and at least one; each step advances by the step fraction of the estimate; stopping early means the estimate fell below 0.001 or the depth passed the far limit |
| RayMarch.RayMarch | src/utils/shaders/QuaternionJulia-frag.js:73-82 | the loop (also Kleinian-frag.js:71-80 and MengerSponge-frag.js:61-70) takes between 1 and 100 steps and ends at the depth of `Trace` |
| RayMarch.FirstHitStopsAtOnce | src/utils/shaders/Kleinian-frag.js:74-77 | a ray starting within 0.001 of the surface stops after one step, at the first estimate times the step fraction |
| RayMarch.MissStopsBeyondFarLimit | src/utils/shaders/MengerSponge-frag.js:63-68 | a ray that never comes within 0.001 runs all 100 steps or ends beyond the far limit |
| Kleinian.FoldComponent | src/utils/shaders/Kleinian-frag.js:37 | one component of `clamp(p, -L, L) * 2.0 - p`; FoldComponentCases and FoldComponentShrinks characterise it |
| Kleinian.BoxFold | src/utils/shaders/Kleinian-frag.js:36-38 | the fold on all three components; BoxFoldFixesInnerBox characterises it |
| Kleinian.SphereFold | src/utils/shaders/Kleinian-frag.js:41-49 | the three-way fold on `dot(p, p)`; SphereFoldKeepsOuter, SphereFoldDoublesInner and SphereFoldInvertsBand characterise it |
| Kleinian.Round | src/utils/shaders/Kleinian-frag.js:61-63 | one pass: box fold, sphere fold, then `z * 1.8 + p`; KleinianLoop iterates it |
| Kleinian.Dr | src/utils/shaders/Kleinian-frag.js:54-64 | the derivative after `n` passes; DrClosedForm and DrAtLeastOne characterise it |
| Kleinian.FoldComponentCases | src/utils/shaders/Kleinian-frag.js:36-38 | `boxFold` leaves a component within the limit alone, maps `x > L` to `2L - x` and `x < -L` to `-2L - x` |
| Kleinian.FoldComponentShrinks | src/utils/shaders/Kleinian-frag.js:37 | folding never moves a component further from zero |
| Kleinian.BoxFoldFixesInnerBox | src/utils/shaders/Kleinian-frag.js:36-38 | points of the box `[-L, L]^3` are fixed points of `boxFold` |
| Kleinian.SphereFoldKeepsOuter | src/utils/shaders/Kleinian-frag.js:41-49 | `sphereFold` returns `p` unchanged when `dot(p, p)` is at least both radii |
| Kleinian.SphereFoldDoublesInner | src/utils/shaders/Kleinian-frag.js:43-44 | with radii 0.5 and 1, the inner region is scaled by exactly 2 |
| Kleinian.SphereFoldInvertsBand | src/utils/shaders/Kleinian-frag.js:45-46 | between the radii the fold inverts: `dot(p', p') * dot(p, p) = fixedRadius^2` |
| Kleinian.DrClosedForm | src/utils/shaders/Kleinian-frag.js:54-64 | after `n` rounds `dr = 2.25 * 1.8^n - 1.25` |
| Kleinian.DrAtLeastOne | src/utils/shaders/Kleinian-frag.js:64-67 | `dr >= 1` after any number of rounds, so the final division is defined |
| Kleinian.KleinianLoop | src/utils/shaders/Kleinian-frag.js:52-68 | exactly 20 rounds with no escape test; `z` is the 20th orbit point and `dr = Dr(20) >= 1` |
| MengerSponge.Crease | src/utils/shaders/MengerSponge-frag.js:49 | one component of `abs(1 - 3 * abs(a))`, in [0, 2] for `a` in [-1, 1] |
| MengerSponge.Term | src/utils/shaders/MengerSponge-frag.js:47-53 | round `k`'s value `c`; TermBounds bounds it |
| MengerSponge.Sponge | src/utils/shaders/MengerSponge-frag.js:43-57 | the running maximum over the four rounds; MengerLoop equals it and SpongeAtLeastStart bounds it |
| MengerSponge.Mod2 | src/utils/shaders/MengerSponge-frag.js:47 | GLSL `mod(x, 2.0)` lies in [0, 2) |
| MengerSponge.Offsets | src/utils/shaders/MengerSponge-frag.js:47 | the position inside the cell lies in [-1, 1) on each axis |
| MengerSponge.Creases | src/utils/shaders/MengerSponge-frag.js:49 | `abs(1 - 3 * abs(a))` lies in [0, 2] on each axis |
| MengerSponge.SmallestMax | src/utils/shaders/MengerSponge-frag.js:50-53 | the smallest pairwise maximum is one of the three components, between their minimum and maximum |
| MengerSponge.Pow3 | src/utils/shaders/MengerSponge-frag.js:44-48 | the scale `s` is at least 1 |
| MengerSponge.TermBounds | src/utils/shaders/MengerSponge-frag.js:47-53 | each round's term `c` lies in `[-1/s, 1/s]` for the tripled scale `s` |
| MengerSponge.SpongeAtLeastStart | src/utils/shaders/MengerSponge-frag.js:43-57 | the estimate is never below the box distance it started from |
| MengerSponge.MengerLoop | src/utils/shaders/MengerSponge-frag.js:42-58 | four rounds with `s` tripling, ending at `Sponge(p, box, 0)`, which is at least `box` |
| PanZoom.InitialCenter | src/pages/Fractals/2dFractals/BarnsleyFern.jsx:35 | the starting centre: (0, -2.5) on the fern, the origin elsewhere (Mandelbrot.jsx:33); the constructor sets it |
| PanZoom.DefaultColor | src/pages/Fractals/2dFractals/Mandelbrot.jsx:66 | the `||` fallbacks of each 2D page: 0 on the escape-time pages, 1 on Sierpinski and Koch (Sierpinski.jsx:67), (0, 1, 0) on the fern (BarnsleyFern.jsx:115); ColorUniform uses them |
| PanZoom.InitialZoom | src/pages/Fractals/2dFractals/BarnsleyFern.jsx:16 | the starting zoom (2.5, or 3 for Koch and 5 for the fern) is positive |
| PanZoom.WheelFactor | src/pages/Fractals/2dFractals/Mandelbrot.jsx:118-123 | a positive `deltaY` zooms by 1.1; otherwise by 1/1.1, or by 0.9 on the Julia page (Julia.jsx:90-95) |
| PanZoom.WheelDownUpRestores | src/pages/Fractals/2dFractals/Mandelbrot.jsx:118-123 | away from the Julia page, a scroll down and a scroll up restore the zoom exactly |
| PanZoom.JuliaWheelDownUpShrinks | src/pages/Fractals/2dFractals/Julia.jsx:90-95 | on the Julia page a scroll down and a scroll up leave 0.99 of the zoom |
| PanZoom.Pan | src/pages/Fractals/2dFractals/Mandelbrot.jsx:134-146 | a move that ends where it started leaves the centre alone |
| PanZoom.PanTelescopes | src/pages/Fractals/2dFractals/Mandelbrot.jsx:134-146 | two consecutive moves equal one move from the first start to the last pointer |
| PanZoom.PanAllIsOneMove | src/pages/Fractals/2dFractals/Mandelbrot.jsx:134-146 | a whole drag depends only on where it was pressed and where it ended |
| PanZoom.PanZoomView.constructor | src/pages/Fractals/2dFractals/BarnsleyFern.jsx:34-39 | the page's starting zoom and centre, not dragging |
| PanZoom.PanZoomView.Wheel | src/pages/Fractals/2dFractals/Mandelbrot.jsx:118-123 | the zoom is multiplied by the page's factor and stays positive; nothing else changes |
| PanZoom.PanZoomView.Down | src/pages/Fractals/2dFractals/Mandelbrot.jsx:128-131 | dragging starts from the pointer; the view is untouched |
| PanZoom.PanZoomView.Move | src/pages/Fractals/2dFractals/Mandelbrot.jsx:134-146 | a no-op unless dragging; otherwise x moves against the drag and y with it by `delta / side * zoom`, and the drag restarts at the pointer |
| PanZoom.PanZoomView.Up | src/pages/Fractals/2dFractals/Mandelbrot.jsx:148-156 | `mouseup` and `mouseout` clear dragging and change nothing else |
| PanZoom.Drag | src/pages/Fractals/2dFractals/Mandelbrot.jsx:128-156 | a press, any number of moves and a release pan the centre by one move from press to release |
| PanZoom.ColorUniform | src/pages/Fractals/2dFractals/Mandelbrot.jsx:66 | each truthy stored channel is sent as is, a falsy one falls back to the page's default (Sierpinski.jsx:67, BarnsleyFern.jsx:115) |
| PanZoom.CenterUniform | src/pages/Fractals/2dFractals/BurningShip.jsx:58 | Burning Ship sends `(x, -y)`; every other page sends the centre itself |
| PanZoom.Uniforms | src/pages/Fractals/2dFractals/Mandelbrot.jsx:61-67 | the resolution sent is positive, and the zoom and `insideBW` are those of the page |
| PanZoom.IterationsUniform | src/pages/Fractals/2dFractals/Sierpinski.jsx:69 | the `iterations` uniform is the constant 7 for Sierpinski and 5 for Koch (KochSnowflake.jsx:20) |
| PanZoom.JuliaCUniform | src/pages/Fractals/2dFractals/Julia.jsx:44-48 | falsy parts of `juliaC` fall back to (-0.8, 0.156) |
| PanZoom.InitialZUniform | src/pages/Fractals/2dFractals/Mandelbrot.jsx:68-72 | each falsy part of `initialZ` falls back to 0 on its own; the shader ignores the value |
| PanZoom.BurningShipCentreIsDrawnAtCentre | src/pages/Fractals/2dFractals/BurningShip.jsx:58 | through the flipped mapping, the canvas's middle pixel shows the point `(x, -y)` sent for the centre |
| OrbitView.Turn | src/pages/Fractals/3dFractals/QuaternionJulia.jsx:159-160 | an angle moves against the drag at 0.5 per pixel; TurnsAdd and PitchDoesNotTelescope characterise it |
| OrbitView.Dolly | src/pages/Fractals/3dFractals/QuaternionJulia.jsx:156 | the shift-drag update of `center.z`; OrbitView.Move uses it |
| OrbitView.DefaultColor | src/pages/Fractals/3dFractals/QuaternionJulia.jsx:75-79 | the `||` fallbacks of each 3D page (Kleinian.jsx:76-78, MengerSponge.jsx:76-78); ColorUniform uses them |
| OrbitView.WheelFactor | src/pages/Fractals/3dFractals/QuaternionJulia.jsx:132-137 | a negative `deltaY` multiplies the zoom by 1.1; anything else by its reciprocal |
| OrbitView.ClampPitch | src/pages/Fractals/3dFractals/QuaternionJulia.jsx:163-166 | the pitch lands in [-90, 90], unchanged exactly when it was already there |
| OrbitView.TurnsAdd | src/pages/Fractals/3dFractals/QuaternionJulia.jsx:159 | yaw is never clamped, so consecutive turns add up |
| OrbitView.PitchDoesNotTelescope | src/pages/Fractals/3dFractals/QuaternionJulia.jsx:159-166 | pitch is clamped per move: 200 pixels up then 200 down ends at -10, not 0 |
| OrbitView.OrbitView.constructor | src/pages/Fractals/3dFractals/QuaternionJulia.jsx:35-41 | zoom 1, centre and angles 0, not dragging |
| OrbitView.OrbitView.Wheel | src/pages/Fractals/3dFractals/QuaternionJulia.jsx:132-137 | the zoom is multiplied by the 3D factor and stays positive; nothing else changes |
| OrbitView.OrbitView.Down | src/pages/Fractals/3dFractals/QuaternionJulia.jsx:142-146 | dragging starts from the pointer; the camera is untouched |
| OrbitView.OrbitView.Move | src/pages/Fractals/3dFractals/QuaternionJulia.jsx:148-171 | a no-op unless dragging; a shift-drag changes only `center.z`, by `dy / height * zoom`; a plain drag changes only yaw and pitch by `-delta * 0.5`, the pitch clamped to [-90, 90] |
| OrbitView.OrbitView.Up | src/pages/Fractals/3dFractals/QuaternionJulia.jsx:173-181 | `mouseup` and `mouseout` clear dragging and change nothing else |
| OrbitView.ColorUniform | src/pages/Fractals/3dFractals/QuaternionJulia.jsx:75-79 | falsy channels fall back to the page's colour: (0.8, 0.4, 1.0), Kleinian (1.0, 0.7, 0.3), Menger (1.0, 0.8, 0.6) |
| BarnsleyFern.BranchOf | src/pages/Fractals/2dFractals/BarnsleyFern.jsx:55-71 | the draw picks the stem below 0.01, then the leaflets below 0.86, then the left leaflet below 0.93, else the right leaflet |
| BarnsleyFern.Next | src/pages/Fractals/2dFractals/BarnsleyFern.jsx:55-74 | the stem map sends `(x, y)` to `(0, 0.16 y)` |
| BarnsleyFern.CellOf | src/pages/Fractals/2dFractals/BarnsleyFern.jsx:77-80 | a point has a cell exactly when both floored coordinates are in 0..511, and the cell index is below 512 * 512 |
| BarnsleyFern.Bump | src/pages/Fractals/2dFractals/BarnsleyFern.jsx:82 | a cell counts up by one and saturates at 255 |
| BarnsleyFern.Iterate | src/pages/Fractals/2dFractals/BarnsleyFern.jsx:53-83 | one iteration moves the point and bumps at most its own cell; every other cell is unchanged |
| BarnsleyFern.Run | src/pages/Fractals/2dFractals/BarnsleyFern.jsx:46 | the histogram always has 512 * 512 cells |
| BarnsleyFern.IterateAddsAtMostOne | src/pages/Fractals/2dFractals/BarnsleyFern.jsx:80-83 | an iteration raises the sum of the cells by 0 or 1 |
| BarnsleyFern.SumAtMostDraws | src/pages/Fractals/2dFractals/BarnsleyFern.jsx:51-83 | the sum of all cells is at most the number of iterations |
| BarnsleyFern.Plot | src/pages/Fractals/2dFractals/BarnsleyFern.jsx:76-83 | the buffer changes only at the point's cell, when it has one, and there by `Bump` |
| BarnsleyFern.GenerateFern | src/pages/Fractals/2dFractals/BarnsleyFern.jsx:44-87 | the fresh `Uint8Array` after 100000 iterations holds the histogram `Run` describes |
| ImageCarousel.NextIndex | src/components/ImageCarousel.jsx:9-12 | the next index is in range: one more, wrapping from the last slide to 0 |
| ImageCarousel.PrevIndex | src/components/ImageCarousel.jsx:14-17 | the previous index is in range: one less, wrapping from 0 to the last slide |
| ImageCarousel.NextPrevInverse | src/components/ImageCarousel.jsx:9-17 | the previous button undoes the next button and the other way round |
| ImageCarousel.NextTimes | src/components/ImageCarousel.jsx:11 | after at least one press the index is in range |
| ImageCarousel.NextTimesMoves | src/components/ImageCarousel.jsx:11 | up to `n` presses move `k` places round the ring |
| ImageCarousel.FullTurnReturns | src/components/ImageCarousel.jsx:9-12 | `n` presses of the next button return to the starting slide |
| ImageCarousel.HandleImageClick | src/components/ImageCarousel.jsx:19-25 | a click navigates exactly when it is on the current slide; any other click selects that slide |
| ImageCarousel.GetSlideClass | src/components/ImageCarousel.jsx:27-32 | the tests in order: current, then previous, then next, else hidden; ActiveIsCurrent, PrevAndNextAreUnique and TwoSlidesHaveNoNext characterise it |
| ImageCarousel.ActiveIsCurrent | src/components/ImageCarousel.jsx:27-28 | exactly the current slide is classed active |
| ImageCarousel.PrevAndNextAreUnique | src/components/ImageCarousel.jsx:27-32 | with three or more slides exactly one slide is prev and exactly one is next |
| ImageCarousel.TwoSlidesHaveNoNext | src/components/ImageCarousel.jsx:27-32 | with two slides the other slide is prev, because that test comes first, and none is next |
| ImageCarousel.Render | src/components/ImageCarousel.jsx:34-50 | an empty list shows the message; otherwise one class per slide, active exactly for the current one |
| Searchbar.Lower | src/components/Searchbar.jsx:54 | lower-casing keeps the length and maps each character |
| Searchbar.TrimStart | src/components/Searchbar.jsx:48 | drops exactly the leading whitespace |
| Searchbar.TrimEnd | src/components/Searchbar.jsx:48 | drops exactly the trailing whitespace |
| Searchbar.TrimEmptyIffBlank | src/components/Searchbar.jsx:48-51 | the trimmed value is empty exactly when every character is whitespace |
| Searchbar.Matches | src/components/Searchbar.jsx:54 | the lower-cased name contains the lower-cased query; NoMatchWithoutFirstLetter characterises it |
| Searchbar.Trim | src/components/Searchbar.jsx:48 | TrimStart then TrimEnd; TrimEmptyIffBlank characterises it |
| Searchbar.Filter | src/components/Searchbar.jsx:53-55 | a page is kept exactly when its lower-cased name contains the lower-cased query |
| Searchbar.Suggestions | src/components/Searchbar.jsx:44-57 | a blank value gives no suggestions; otherwise exactly the matching pages |
| Searchbar.FilterInTableOrder | src/components/Searchbar.jsx:53-55 | `filter` keeps each matching page once and in table order: the `k`-th result is the page at the `k`-th matching position, and no matching position is skipped |
| Searchbar.SuggestionsInTableOrder | src/components/Searchbar.jsx:44-57 | for a query that is not blank, the suggestions are the matching pages in table order, each once |
| Searchbar.InputChange | src/components/Searchbar.jsx:44-57 | the query becomes the typed value and the suggestions follow it |
| Searchbar.FindExact | src/components/Searchbar.jsx:75-77 | `find` returns the first page whose name equals the query ignoring case, or none when no page does |
| Searchbar.Submit | src/components/Searchbar.jsx:73-83 | an exact match clears the bar and navigates to its path; otherwise nothing changes |
| Searchbar.SuggestionClick | src/components/Searchbar.jsx:63-67 | the bar is cleared and the clicked path is navigated to |
| Searchbar.NamesDistinctIgnoringCase | src/components/Searchbar.jsx:14-29 | no two page names are equal ignoring case, so an exact match is unique |
| Searchbar.TrailingSpaceMatchesNothing | src/components/Searchbar.jsx:48-55 | the filter does not trim: "julia " matches no page |
| Card.Replace | src/components/Card.jsx:16-17 | one `replace(/m(\d+)/g, ...)` pass; ReplaceWithoutMarker, ReplacesWholeRun, MarkerBeforeNonDigitIsKept and ReplaceKeeps characterise it |
| Card.FormatEquation | src/components/Card.jsx:14-18 | the `^` pass then the `_` pass; PlainEquationUnchanged, DigitsKeepOrder and SupPassKeepsUnderscores characterise it |
| Card.IsWIP | src/components/Card.jsx:31 | `name.includes("(W.I.P)")`; HandleClick refuses to navigate when it holds |
| Card.DigitRun | src/components/Card.jsx:16 | the run taken after a marker is all digits and maximal |
| Card.ReplaceWithoutMarker | src/components/Card.jsx:16-17 | a string without the marker goes through a pass unchanged |
| Card.PlainEquationUnchanged | src/components/Card.jsx:14-18 | an equation with no `^` and no `_` is returned unchanged |
| Card.ReplacesWholeRun | src/components/Card.jsx:16 | a marker followed by a maximal run of digits becomes the run wrapped in the tag |
| Card.MarkerBeforeNonDigitIsKept | src/components/Card.jsx:17 | a marker followed by a non-digit, as in `z_n`, is left as is |
| Card.ReplaceKeeps | src/components/Card.jsx:16-17 | for any class of characters that excludes the marker and the tag's characters, a pass leaves the subsequence of that class unchanged |
| Card.DigitsKeepOrder | src/components/Card.jsx:14-18 | the digits of the equation read the same, in order, after formatting |
| Card.SupPassKeepsUnderscores | src/components/Card.jsx:16-17 | the superscript tags bring in no `_`, so the subscript pass sees exactly the original underscores |
| Card.HandleClick | src/components/Card.jsx:31-37 | a click navigates to the path exactly when a non-empty path is given and the name lacks "(W.I.P)" |
| FractalDimTemplate.HandleScroll | src/pages/fractalDimTemplate.jsx:26-34 | compact mode turns on only beyond 50 and off only below 20; in [20, 50] the mode is unchanged |
| FractalDimTemplate.ScrollIdempotent | src/pages/fractalDimTemplate.jsx:26-34 | a second event at the same offset changes nothing |
| FractalDimTemplate.CarouselHeight | src/pages/fractalDimTemplate.jsx:48 | the carousel is 40% high exactly when compact, else 70% |

## Left out

- WebGL and DOM plumbing is not modelled: shader compilation and linking, buffers, `drawArrays`, local storage, listener registration, cursor styles and `plotPoints`. Each is a call into the browser.
- The camera, lighting, normal and rotation code of the 3D shaders, the Mandelbulb and Koch snowflake shaders, and the fern's texture shader are left out. They rest on `cos`, `sin`, `pow`, `log`, `normalize` and `smoothstep`, which have no exact real counterpart.
- The distance values that need a square root or a logarithm are not computed:
  - the quaternion estimate `0.5 * log(r) * r / dr`;
  - the Kleinian `length(z) / abs(dr)`;
  - the Menger `sdBox`, which `MengerLoop` takes as its input `box`.
- QuaternionJulia.Iterate: tracks `r^2` and `dr^2` in place of `r = length(z)` and `dr`, because a square root is not exact on reals. The escape test `r > 2` becomes `r^2 > 4`, and `dr = 2 r dr` becomes `dr^2 = 4 r^2 dr^2`.
- RayMarch.RayMarch: the distance estimator is a parameter mapping depth to estimate, in place of each shader's estimator at `ro + rd * depth`. Its results are the final depth and the step count.
- Floating-point rounding, overflow to infinity and NaN inside the shaders are not modelled. GLSL floats become reals.
- `Math.random` is replaced by the sequence of draws it would return, and the wheel and mouse events by their `deltaY` and client coordinates.
- Searchbar.Lower: lower-cases and trims ASCII only. `toLowerCase` and `trim` also act on other Unicode characters. For example, `toLowerCase` turns U+212A KELVIN SIGN into "k", so the query "\u212Aoch" matches "Koch Snowflake" in the search bar but matches nothing in the model.
- Colours are produced as numbers, not as the CSS strings the generators and pages assemble.
- CpuGenerators.Ratio: returns 0 for a zero canvas side, where JavaScript would produce `NaN`. The loops never divide by a zero side.
- ImageCarousel.NextIndex: requires at least one slide. With no slides the carousel renders only its message and no buttons, so the handlers cannot run.
- Sierpinski.Classify: takes the starting triangle as a parameter. `SierpinskiMain` passes the shader's triangle.
- src/utils/Mandelbrot.js, the top-level duplicate pages under src/pages/, and the navigation chrome (header, navbar, sidebar) are not part of this model.
- The description page's `handleCarouselWheel`, which forwards wheel deltas to the content's `scrollTop`, is left out. The browser clamps that offset.
