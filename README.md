# Quadratic Bezier click demo, modelled in Dafny

The demo is a web page. The user clicks three points on a canvas, and the page
draws the quadratic Bezier curve through them as a line strip. The curve's
middle control point is animated: each frame scales it by a number `alpha`
that moves between -1 and 1. A plus and a minus button change the animation
speed. A clear button starts over.

This project models the logic of that page:

- `Vectors.dfy`: 2-D vectors over the reals and the two vector operations the
  sampler uses (`Add`, `Scale`). In the original these come from a helper
  library.
- `CurveSampler.dfy`: the sampler `getPointsOnTheCurve`.
  - `PointsOnTheCurve` keeps the original's loops: a `while t <= 1` loop that
    evaluates the Bernstein form and advances `t` by 0.01, then nested loops
    that flatten the vectors into `x0, y0, x1, y1, ...`.
  - It is proved equal to the specification `Curve = Flatten(Samples(a, b, c))`.
  - Lemmas about `Curve` and `Bez`: sample k is the Bezier point at
    t = k·0.01; the curve starts at the first control point and, with exact
    arithmetic, ends at the third; swapping the end points reverses the
    samples; the curve stays inside any axis-aligned box that contains its
    control points (convex hull); flattening and reading back pairs are inverses.
- `ClickCoordinates.dfy`: `getClickCoordinates`, which converts a click from
  window pixels to normalized device coordinates. Its inverse `FromNdc` gives
  round trips in both directions. A click within canvas.width × canvas.height
  pixels of the canvas rectangle's top-left corner lands in [-1, 1] × [-1, 1],
  and the corners of that pixel area map to the corners of the square.
- `Animation.dfy`: the alpha/step update that `render` performs each frame
  (`Advance`), and what it preserves.
  - Bounce invariant: alpha stays within one step of [-1, 1], and the step
    points inward whenever alpha is at a bound. Frames and the plus button
    preserve it. The minus button can break it.
  - The clear button resets the step but not alpha. Pressed on the frame right
    after the first bounce at -1, it leaves alpha alternating between -1 and
    -1.01 on every later frame for as long as no other button is pressed. The
    curve then flickers between two shapes instead of sweeping.
- `Controller.dfy`: the page's module-level state (`controlPoints`, `curve`,
  `alpha`, `steppingFactor`) as the fields of class `Demo`, with one method per
  event handler and one for `render`. The class invariant is: at most three
  control points, and once three are held, `curve` is the sampled curve of
  those three points in click order.

## How the model follows the code

- The handlers for a mouse click and for the clear button both end by calling
  `render` (Lab_6_Group_12.js:90 and :112). That call advances alpha, so
  `OnMouseDown` and `OnClear` call the model's `Render`. After a click that
  leaves three points held, the animation advances by one frame. This also
  happens on every further click while three are held. After a clear, the
  render finds no control points, so nothing changes.
- Every `render` call also ends with `window.requestAnimFrame(render)`
  (Lab_6_Group_12.js:35), and that includes the calls from the click and clear
  handlers (lines 90 and 112). Each such call therefore starts one more chain
  of frames beside the one begun at page load. After every click made while
  three points are held, and after every clear, alpha advances one more time
  per screen refresh than before. The model does not count chains. Each
  `Render` call is one frame of one chain.
- `render` draws a curve recomputed from `controlPoints` with the middle point
  scaled by alpha. It never reads the `curve` variable that the click handler
  stores. `Render` returns the drawn line strip as a `Frame`. The stored
  `curve` is kept as the class invariant describes.
- The clear handler empties the control points and sets the step to -0.01. It
  does not reset alpha. It assigns `curves = []`, which creates a new global
  instead of clearing `curve`. `OnClear` does exactly this: alpha and `curve`
  keep their values.
- A click when three points are already held adds nothing. There is no
  multi-curve mode, and the three points stay until clear.
- The two bound checks in `render` are `if … else if`, so a frame reverses
  the step at most once.
- In short: clear keeps alpha; a complete set of three points is never
  emptied except by clear; there is no collection of several curves; and a
  frame cannot reverse the step twice.

## Model

| member | source | states |
|---|---|---|
| `CurveSampler.Bez` | Lab_6_Group_12.js:60 | The Bernstein point interpolates the end points: it equals A at t = 0 and C at t = 1. At t = 0.5 it equals A/4 + B/2 + C/4. |
| `CurveSampler.Param` | Lab_6_Group_12.js:51-62 | Every t at which the loop samples lies in [0, 1]. The first is 0. With exact arithmetic the last (the 101st) is 1. |
| `CurveSampler.PointsOnTheCurve` | Lab_6_Group_12.js:45-73 | The while loop and the nested flattening loops return exactly `Flatten(Samples(a, b, c))`. So the loop stops after 101 samples with exact arithmetic. |
| `CurveSampler.FlattenAt` | Lab_6_Group_12.js:67-71 | The flat list has 2·n entries, and vector k sits at positions 2k (x) and 2k+1 (y). |
| `CurveSampler.FlattenSnoc` | Lab_6_Group_12.js:67-71 | Flattening one more vector appends exactly its x and y, so order is kept. |
| `CurveSampler.UnflattenFlatten` | Lab_6_Group_12.js:67-71 | Reading the flat list back two entries at a time gives the original vectors. |
| `CurveSampler.FlattenUnflatten` | Lab_6_Group_12.js:67-71 | Every even-length coordinate list is the flattening of its consecutive pairs. |
| `CurveSampler.CurveAt` | Lab_6_Group_12.js:58-71 | With exact arithmetic the returned list has 202 entries. Entries 2k and 2k+1 are the coordinates of the Bezier point at t = k·0.01. |
| `CurveSampler.CurveStartsAtFirst` | Lab_6_Group_12.js:51-62 | The first emitted point is the first control point. |
| `CurveSampler.CurveEndsAtLast` | Lab_6_Group_12.js:58-63 | With exact arithmetic the last emitted point (entries 200 and 201) is the third control point. |
| `CurveSampler.BezReversed` | Lab_6_Group_12.js:60 | Swapping A and C and replacing t by 1 - t gives the same point. |
| `CurveSampler.SamplesReversed` | Lab_6_Group_12.js:58-63 | Sampling (C, B, A) gives the samples of (A, B, C) in reverse order. |
| `CurveSampler.BernsteinWeights` | Lab_6_Group_12.js:60 | The three weights of the formula are non-negative for t in [0, 1] and sum to 1. |
| `CurveSampler.BezInBox` | Lab_6_Group_12.js:60 | For t in [0, 1], the Bezier point lies in every axis-aligned box [lx, hx] × [ly, hy] that contains the three control points. |
| `CurveSampler.CurveInBox` | Lab_6_Group_12.js:45-73 | When all control points lie in the box [lx, hx] × [ly, hy], every x the sampler returns is in [lx, hx] and every y is in [ly, hy]. |
| `ClickCoordinates.ToNdc` | Lab_6_Group_12.js:116-121 | A result exists exactly when the canvas has positive width and height. Otherwise the original divides by zero. |
| `ClickCoordinates.NdcRoundTrip` | Lab_6_Group_12.js:116-121 | Converting a click to device coordinates and mapping back gives the original pixel. |
| `ClickCoordinates.PixelRoundTrip` | Lab_6_Group_12.js:116-121 | Mapping a device point to its pixel and converting back gives the point. |
| `ClickCoordinates.ClickOnCanvas` | Lab_6_Group_12.js:116-121 | A click within canvas.width × canvas.height pixels of the canvas rectangle's top-left corner lands in [-1, 1] × [-1, 1]. The top-left corner maps to (-1, 1) and the bottom-right to (1, -1), so y is flipped. |
| `Animation.Advance` | Lab_6_Group_12.js:28-33 | alpha grows by the step. The step keeps its size and flips sign at most once. When the step is non-zero, it flips exactly when the new alpha is <= -1 or >= 1. |
| `Animation.StartIsBouncing` | Lab_6_Group_12.js:16-17 | The initial alpha 1 and step -0.01 satisfy the bounce invariant. |
| `Animation.AdvanceKeepsBouncing` | Lab_6_Group_12.js:28-33 | One frame keeps the bounce invariant: alpha within one step of [-1, 1], and the step pointing inward at a bound. |
| `Animation.FramesKeepBouncing` | Lab_6_Group_12.js:23-36 | Any number of frames keeps the bounce invariant. |
| `Animation.SpeedUpKeepsBouncing` | Lab_6_Group_12.js:96-98 | Multiplying the step by 1.25 keeps the bounce invariant. |
| `Animation.SlowDownCanBreakBouncing` | Lab_6_Group_12.js:102-104 | Halving the step can break the bounce invariant. |
| `Animation.FirstDescent` | Lab_6_Group_12.js:28-33 | From the start, after k < 200 frames, alpha is 1 - 0.01k and the step is still -0.01. |
| `Animation.FirstBounce` | Lab_6_Group_12.js:28-33 | Frame 200 brings alpha to exactly -1 and turns the step to +0.01. |
| `Animation.StuckBelow` | Lab_6_Group_12.js:28-33 | When alpha <= -1 and the step is not positive, the frames alternate between two states and alpha never rises above -1. |
| `Animation.ClearAfterBounceSticks` | Lab_6_Group_12.js:108-113 | Clear applied right after the first bounce breaks the bounce invariant. From then on alpha stays <= -1 on every frame. |
| `Controller.Demo.constructor` | Lab_6_Group_12.js:13-21 | Page load: no control points, an empty curve, alpha 1 and step -0.01. The invariant holds. |
| `Controller.Demo.Render` | Lab_6_Group_12.js:23-36 | With three points, it draws the sampled curve of the points with the middle one scaled by the current alpha, and alpha and the step advance by `Advance`. Otherwise it draws nothing and changes nothing. The control points and `curve` are never modified. |
| `Controller.Demo.OnMouseDown` | Lab_6_Group_12.js:76-92 | The point is appended only when fewer than three are held, so there are never more than three. Whenever three are held afterwards, `curve` is the sampled curve of the three points in click order and one frame advances the animation. Otherwise `curve`, alpha and the step are unchanged. |
| `Controller.Demo.OnPlus` | Lab_6_Group_12.js:96-98 | The step is multiplied by 1.25 and keeps its sign. Nothing else changes. |
| `Controller.Demo.OnMinus` | Lab_6_Group_12.js:102-104 | The step is multiplied by 0.5 and keeps its sign. Nothing else changes. |
| `Controller.Demo.OnClear` | Lab_6_Group_12.js:108-113 | The control points become empty and the step becomes -0.01. Alpha and `curve` keep their values. |
| `Controller.ClickedCurveOnCanvas` | Lab_6_Group_12.js:81-89 | Three clicks, each within canvas.width × canvas.height pixels of the canvas rectangle's top-left corner, on a canvas of positive size give a curve whose every coordinate lies in [-1, 1]. |

## Left out

- Real numbers stand in for double-precision floats throughout. Rounding, NaN and infinities are not modelled.
- CurveSampler.PointsOnTheCurve: with exact arithmetic the loop emits 101 vectors and ends at C. In doubles, one hundred additions of 0.01 land just above 1, so the original most likely emits 100 vectors and stops near t = 0.99. The model proves the exact-arithmetic count only.
- CurveSampler.CurveEndsAtLast: "ends at C" holds for the exact-arithmetic loop only, as explained for `PointsOnTheCurve`.
- Animation.FirstBounce: the bounce at frame 200 with alpha exactly -1 holds with exact arithmetic. In doubles, alpha drifts by rounding, so the first bounce may come one frame later and at a slightly different alpha. The sticking after a clear needs only alpha <= -1 with a non-positive step, and `StuckBelow` proves it for every such state.
- ClickCoordinates.ToNdc: a canvas of width or height 0 yields `None`. It stands for the infinite or NaN coordinates that the division by zero produces.
- WebGL setup, shaders, vertex-buffer upload and drawing (`setUpWebGL`, `initVertexBuffers`, `gl.clear`, `gl.drawArrays`) are graphics-API calls. `Render` returns the line strip it would draw instead.
- The global vertex count `n` that `render` stores is not modelled. It is half the returned strip's length and is only used for drawing.
- `window.requestAnimFrame(render)` is scheduling. Each call of `Render` is one frame, and the caller decides how often it runs. The extra frame chains that the handlers' own `render` calls start (one per click with three points held and one per clear) are therefore not modelled: the model does not say how many frames run per screen refresh.
- ClickCoordinates.ClickOnCanvas: `getBoundingClientRect` (Lab_6_Group_12.js:117) gives the canvas's on-screen CSS box, while the conversion divides by the drawing-buffer size `canvas.width` and `canvas.height`. The lemma assumes the canvas is shown at its buffer size with no border or padding, so that the CSS box is exactly `width` × `height` pixels from its top-left corner. A canvas scaled by CSS maps clicks outside [-1, 1] or short of its edges, and that case is not covered.
- Controller.ClickedCurveOnCanvas: rests on `ClickOnCanvas` and makes the same assumption that the canvas is shown at its buffer size with no border or padding.
- Browser wiring (`window.onload`, `document.getElementById`, `getBoundingClientRect`, the click event object) is I/O. The canvas rectangle's left and top edges, the canvas size and the click position are parameters. `Demo.OnMouseDown` takes the click already converted by `ToNdc`.
- The helper library's `vec2`, `add`, `scale` and `flatten` are replaced by `Vec2`, `Add`, `Scale` and the sampler's own flattening. The conversion to a 32-bit float array during upload is not modelled.
- The implicit globals that the original creates by assignment without declaration (`curves` in the clear handler, `x` and `y` in `getClickCoordinates`) are never read, so they are not state here.
