# Sketch stroke bookkeeping

A model of the drawing logic of the `Sketch` component of expo-pixi
(`lib/components/Sketch.js`): a freehand-drawing surface that turns touch
gestures into ink strokes. The component keeps five pieces of state — the
finished `lines`, the current stroke's `points`, the current `graphics`
object (present or absent), the `lastPoint` recorded and the `lastTime` a
move was accepted — and changes them in three handlers:

- gesture start (`onPanResponderGrant`) scales the touch point by the device
  pixel ratio and starts a new line there;
- gesture move (`onPanResponderMove`) drops a move less than `delay` (10 ms)
  after `lastTime` — the last accepted move, or 0 once a line has started —
  and otherwise appends a smoothed point that lies
  only `ease` (0.3) of the way from `lastPoint` to the pointer;
- gesture release or termination appends the exact scaled end point.

All three go through `drawLine`, which does nothing until the renderer exists
(or when appending with no current stroke), moves the current stroke into
`lines` when a new line starts, and otherwise appends the point and rebuilds
the whole path of the current stroke: a `lineStyle` and `moveTo` for the first
point and a `lineTo` for each later one, with `strokeWidth || 10`,
`strokeColor || 0x000000` and `strokeAlpha || 1`.

Modules:

- `Wrappers` — `Option`, for fields that start out `undefined`.
- `Geometry` — points, `Scaled` and the smoothing step `Eased`, with lemmas.
- `Path` — the style props and their `||` fallbacks, the drawing commands,
  the path `Trace` of a point sequence, its lemmas, and `RebuildPath`, the
  rebuild loop proved against `Trace`.
- `Sketch` — class `Sketch` with the five fields and a `ready` flag for the
  renderer; `DrawLine` and the three handlers, each with its full before/after
  state; `Valid()` is kept by every method. Two client methods run gesture
  sequences through the class and state what the state is at the end.

The invariant `Valid()` says: every stroke in `lines` shows its points (no
drawing while it held only its start point, the full `Trace` after that);
with no graphics object nothing has been recorded; with one, the renderer
exists, the drawn path matches the current points and `lastPoint` is the
last of them.

Coordinates, `ease` and the pixel ratio are `real`; times are integer
milliseconds, passed to the move handler as `now` in place of `Date.now()`;
the pixel ratio (`PixelRatio.get()`) is a constructor parameter.

Behaviour of the code worth knowing:

- `onEnd` (lib/components/Sketch.js:46-47) appends the end point and does not
  move the stroke into `lines`; that happens only when the next line starts
  (lib/components/Sketch.js:92-95). `Sketch.TapStroke` ends with `lines` empty.
- Starting a line sets `lastTime` to 0 (lib/components/Sketch.js:101), so the
  throttle (lib/components/Sketch.js:65-66) compares the first move of a
  stroke against 0, not against the start time: with a real clock that move
  is always accepted (`Sketch.TapStroke`, `Sketch.TwoStrokes`).
- The move handler reads `this.lastPoint.x` unguarded
  (lib/components/Sketch.js:71). With no line ever started, `lastTime` is
  undefined, the difference at line 65 is NaN and passes the throttle, so
  `lastTime` is set and the handler then throws; a later such move within
  `delay` of that time returns quietly at line 66. The model makes a recorded
  `lastPoint` a precondition of `OnMove`.
- Starting a line draws nothing (lib/components/Sketch.js:89-102): a stroke
  that holds only its start point has an empty path until a point is
  appended.

## Model

| member | source | states |
|---|---|---|
| `Geometry.Scaled` | lib/components/Sketch.js:19-21 | both coordinates are multiplied by the same `scale`: a ratio of 1 is the identity and equal coordinates stay equal |
| `Geometry.ScaledSameFactor` | lib/components/Sketch.js:19-21 | the scaled point stays on the line through the origin and the raw point; a positive ratio keeps each coordinate's sign (same ray); a non-zero ratio divides back out |
| `Geometry.Eased` | lib/components/Sketch.js:71-72 | the smoothed point is `last + ease*(p - last)` on each axis: ease 0 stays at `lastPoint`, ease 1 jumps to the pointer, a pointer at `lastPoint` stays there |
| `Geometry.EasedGap` | lib/components/Sketch.js:71-72 | after a smoothing step the gap left to the pointer is the old gap times `1 - ease`, on both axes alike |
| `Geometry.EasedOnSegment` | lib/components/Sketch.js:69-75 | for `ease` in [0, 1] the appended point lies between `lastPoint` and the pointer on each axis |
| `Geometry.DefaultEaseStep` | lib/components/Sketch.js:35 | with the component's ease 0.3, a step from (0,0) towards (10,0) records (3,0): only 0.3 of the way |
| `Path.ResolveStyle` | lib/components/Sketch.js:111-115 | each style value is the prop when truthy and the default (width 10, colour 0x000000, alpha 1) when missing or falsy; the resolved width and alpha are never 0 |
| `Path.ResolveStyleIdempotent` | lib/components/Sketch.js:111-115 | re-resolving a resolved style changes nothing, including the black fallback, which is falsy itself |
| `Path.ZeroPropsFallBack` | lib/components/Sketch.js:112-114 | an explicit width 0 or alpha 0 becomes 10 or 1, and colour 0 stays black |
| `Path.Trace` | lib/components/Sketch.js:107-120 | the rebuilt path has exactly one command per point |
| `Path.TraceAt` | lib/components/Sketch.js:108-119 | command 0 is `moveTo(points[0])` with the style, command `i > 0` is `lineTo(points[i])` |
| `Path.TracePoints` | lib/components/Sketch.js:107-120 | the path depends only on the points: reading the points back off the path gives the points, in order |
| `Path.TraceStyledOnce` | lib/components/Sketch.js:110-116 | a non-empty path starts with `moveTo(points[0])` and carries the style exactly once |
| `Path.RebuildPath` | lib/components/Sketch.js:107-120 | the rebuild loop produces exactly `Trace(points, style)` |
| `Sketch.Sketch.constructor` | lib/components/Sketch.js:29-36 | a new component has no lines, no points, no graphics, no `lastPoint` or `lastTime`, no renderer, ease 0.3 and delay 10 |
| `Sketch.Sketch.OnContextCreate` | lib/components/Sketch.js:141 | creating the renderer makes drawing possible and changes no stroke state |
| `Sketch.Sketch.DrawLine` | lib/components/Sketch.js:84-124 | no change without a renderer or when appending with no graphics; a new line pushes the current stroke (if any) onto `lines`, leaving earlier entries alone, and resets `points` to `[point]`, `lastPoint` to `point`, `lastTime` to 0; an append gives `points + [point]`, `lastPoint == point`, the path `Trace(points)`, and leaves `lines` and `lastTime` unchanged; `Valid()` is kept |
| `Sketch.Sketch.OnGrant` | lib/components/Sketch.js:59-60 | a gesture start begins a new line at the scaled touch point (when the renderer exists) |
| `Sketch.Sketch.OnMove` | lib/components/Sketch.js:61-76 | a move less than `delay` after `lastTime` changes nothing; otherwise `lastTime` becomes `now` and exactly one point, `Eased(lastPoint, scaled pointer, ease)`, is appended, `lines` unchanged |
| `Sketch.Sketch.OnEnd` | lib/components/Sketch.js:46-47 | a release appends the exact scaled end point with no throttle or smoothing, and never changes `lines` or `lastTime` |
| `Sketch.TapStroke` | lib/components/Sketch.js:46-78 | pixel ratio 2, start at (0,0), moves to (5,5) at any clock time `t0 >= 10` and at `t0 + 5`, end at (10,10): the first move records (3,3), the second is throttled, the end adds the exact (20,20), and `lines` stays empty |
| `Sketch.TwoStrokes` | lib/components/Sketch.js:89-101 | after start, one move at time >= 10 and a second start, `lines` holds exactly the first stroke with its two points (start, smoothed point) and its path, and the current stroke is the new start point |

## Left out

- React lifecycle (`componentWillMount`, `shouldComponentUpdate`, `render`, props spreading) and the global mount counter: framework wiring with no stroke state.
- The PanResponder `onStartShouldSet…`/`onMoveShouldSet…` callbacks: gesture-framework configuration; the handlers are methods taking the touch point (and a clock value for moves).
- The renderer and graphics library: `onContextCreate` is reduced to setting `ready`; the context-attributes patch, `autoDetectRenderer`, the `_update` render and `endFrameEXP`, `stage.addChild`, `graphics.clear`, `currentPath.shape.closed = false` and `endFill` are foreign calls; the drawn path is the command sequence.
- `onLayout` resizing: it only forwards to the renderer.
- The `setTimeout` that calls `onChange` after a release: an asynchronous notification with no effect on the strokes.
- `Date.now()` and `PixelRatio.get()`: the clock is the `now` parameter of `OnMove`, the pixel ratio a constructor parameter.
- IEEE double rounding in scaling and smoothing, and NaN props: coordinates are exact reals.
- Style props: they are fixed at construction; the component reads `this.props` on every rebuild, so a prop change between two rebuilds is not modelled.
- Sketch.Sketch.OnMove: requires a recorded `lastPoint`; when no line was ever started (for example a gesture that began before the renderer existed) the code sets `lastTime` and throws a TypeError unless the move is throttled, and that failure is not modelled.
- The count "points of the current stroke = accepted moves + 1" is not stated as one lemma over a gesture stream; it follows from `OnGrant` and `OnMove`, each of which states the exact new `points`.
- Object identity of the graphics objects: `lines` holds values. The code rebinds `points` to a fresh array on each new line, so no entry of `lines` is mutated afterwards, which the value model captures.
