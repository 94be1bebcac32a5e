# Catmull-Rom spline animator in Dafny

This project models `BezierCurveAnimator` from `src/catmull-rom-spline.ts` and proves properties of the model. The animator draws a smooth curve through a sequence of anchor points on a canvas. For each pair of consecutive anchors it derives two inner cubic Bezier control points from the neighbouring anchors. This is the uniform Catmull-Rom construction, scaled by a tension factor. It animates the segments one after the other: a parameter `t` grows by 0.02 per frame, and once it reaches 1 the finished segment is logged and the next one starts. When the container is resized, the canvas and every anchor are rescaled in place.

The model has two modules:

- `Spline` (`spline.dfy`) holds the pure curve arithmetic, over exact reals:
  - `InvertY` flips y against the canvas height.
  - `ControlPoints` derives segment `i` from anchors `i-1 .. i+2`, clamping the neighbours at both ends.
  - `Bezier`/`BezierPoint` evaluate the cubic in Bernstein form.
  - `FrameSamples` is the list of points one frame strokes, sampled at resolution 1000.
- `Animator` (`animator.dfy`) holds the stateful part:
  - The class `BezierCurveAnimator` keeps the source object's animation and geometry fields: `points`, `tension`, `currentSegment`, `t`, `drawnSegments`, `scaleX` and `scaleY`. `points` is an `array<Point>` rescaled in place. `drawnSegments` is a `seq` that only grows.
  - The host objects `canvasWrapper`, `canvas` and `ctx` are not fields of the model. The canvas is reduced to its size, `canvasWidth` and `canvasHeight`.
  - `Step` is one call of `drawAnimatedCurve` without the canvas calls. `Resize` is `resizeCanvas` without the redraw.
  - `SampleFrame` is the sampling loop of `drawAnimatedCurve`, proved against `FrameSamples`.

The class invariant `Valid()` states three things: `0 <= t < 1`; one log record per finished segment (`|drawnSegments| == currentSegment`); and the segment index never passes the last anchor. `Step` and `Resize` preserve it.

For anchors (0,0), (10,0), (20,0), tension 1 and height 0, the first segment's midpoint is (4.375, 0) (`CollinearExampleMidpoint`). Reversing the anchors reverses every segment with the same tension (`ControlPointsReversed`).

## Model

| member | source | states |
|---|---|---|
| `Spline.InvertY` | src/catmull-rom-spline.ts:47-49 | the inverted y and the original y add up to the canvas height |
| `Spline.InvertYInvolution` | src/catmull-rom-spline.ts:47-49 | inverting twice against the same height gives back y |
| `Spline.Flip` | src/catmull-rom-spline.ts:55-59 | an anchor as the curve code uses it: x kept, y inverted against the height |
| `Spline.ControlPoints` | src/catmull-rom-spline.ts:51-71 | for `i + 1` below the number of anchors every index read is in range and the clamped neighbours are `pts[0]` at `i = 0` and `pts[i+1]` at the last segment; the segment starts at anchor `i` and ends at anchor `i+1` (y inverted); `cp1 - start = tension/6 * (end - prev)` and `end - cp2 = tension/6 * (nextnext - start)` |
| `Spline.ControlPointsFirstSegment` | src/catmull-rom-spline.ts:52-53 | at `i = 0` the previous neighbour is clamped to the start anchor, so `cp1` lies on the chord, `tension/6` of the way along |
| `Spline.ControlPointsLastSegment` | src/catmull-rom-spline.ts:61-68 | at the last segment the next-next neighbour is clamped to the end anchor, so `cp2` lies on the chord, `tension/6` short of the end |
| `Spline.ControlPointsZeroTension` | src/catmull-rom-spline.ts:64-68 | with tension 0 both control points coincide with their segment's anchors |
| `Spline.TwoAnchorsGiveStraightSegment` | src/catmull-rom-spline.ts:52-68 | with two anchors both clamps fire: `cp1` and `cp2` are the chord points at `tension/6` and `1 - tension/6`, and every point of the curve lies on the line through the two anchors |
| `Spline.ControlPointsReversed` | src/catmull-rom-spline.ts:51-71 | on the reversed anchor sequence, segment `n-2-i` has this segment's end as its start, its start as its end, and the two control points exchanged |
| `Spline.CurveReversed` | src/catmull-rom-spline.ts:51-86 | the reversed sequence's segment at `t` is the original segment at `1 - t`: the same curve traced backwards |
| `Spline.BezierPoint` | src/catmull-rom-spline.ts:73-87 | the curve returns `p0` exactly at `t = 0` and `p3` exactly at `t = 1`, in both coordinates |
| `Spline.BernsteinSum` | src/catmull-rom-spline.ts:74-78 | the four Bernstein weights of the cubic sum to 1 for every `t` |
| `Spline.BezierReversed` | src/catmull-rom-spline.ts:73-86 | evaluating with the control points in reverse order at `t` gives the point at `1 - t` |
| `Spline.BezierOnChord` | src/catmull-rom-spline.ts:73-86 | a cubic whose inner control points lie on the chord between its ends stays on that line, at a weight given in closed form |
| `Spline.BezierWithinControlBounds` | src/catmull-rom-spline.ts:74-84 | for `0 <= t <= 1` each coordinate of the curve lies within any bounds that hold the four control values |
| `Spline.CollinearExampleControlPoints` | src/catmull-rom-spline.ts:51-71 | anchors (0,0), (10,0), (20,0), tension 1, height 0: segment 0 has control points (10/6, 0) and (40/6, 0) |
| `Spline.CollinearExampleMidpoint` | src/catmull-rom-spline.ts:73-86 | that segment's point at `t = 0.5` is (4.375, 0) |
| `Spline.SampleCount` | src/catmull-rom-spline.ts:113-114 | a frame at `t >= 0` takes `floor(t * 1000) + 1` samples, the grid parameters `i/1000` that do not exceed `t` |
| `Spline.FrameSamples` | src/catmull-rom-spline.ts:113-118 | the frame's list has `SampleCount(t)` points, the first is the segment's start anchor, and sample `k` is the curve at `k/1000` |
| `Animator.SampleFrame` | src/catmull-rom-spline.ts:113-118 | the sampling loop returns exactly `FrameSamples(s, t)` |
| `Animator.Advance` | src/catmull-rom-spline.ts:121-124 | `t` stays in `[0, 1)`; it becomes 0 exactly when `t + 0.02` reaches 1, and otherwise it is `t + 0.02` |
| `Animator.FramesBeforeWrap` | src/catmull-rom-spline.ts:121-124 | from `t = 0`, after `n < 50` frames `t` is `n * 0.02` |
| `Animator.SegmentTakesFiftyFrames` | src/catmull-rom-spline.ts:121-127 | over exact reals a segment finishes on its 50th frame and no earlier |
| `Animator.RescaledByOne` | src/catmull-rom-spline.ts:40-43 | scaling by factors 1 leaves every anchor unchanged |
| `Animator.RescaledTwice` | src/catmull-rom-spline.ts:35-43 | two resizes compound: they equal one rescale by the products of the factors |
| `Animator.RescaleKeepsRelativePosition` | src/catmull-rom-spline.ts:35-43 | after rescaling from the old canvas to the new one, each anchor's coordinates as fractions of the canvas size are unchanged |
| `Animator.FactorScalesBack` | src/catmull-rom-spline.ts:35-38 | a nonzero canvas dimension multiplied by `new / old` becomes `new` |
| `Animator.ControlPointsRescaled` | src/catmull-rom-spline.ts:33-71 | the control points of the rescaled anchors against the rescaled height are the old control points scaled by the same factors: a resize stretches the curve and does not reshape it |
| `Animator.BezierCurveAnimator.constructor` | src/catmull-rom-spline.ts:17-31 | keeps the caller's anchor array and tension (default 1); starts at segment 0 with `t = 0` and an empty log; fits the canvas to the container as the first resize does |
| `Animator.BezierCurveAnimator.Resize` | src/catmull-rom-spline.ts:33-45 | the scale factors are `width / old width` and `height / old height`; afterwards the canvas is `width` x `height` and the anchors are the old ones rescaled in place, in the same order; unchanged dimensions change nothing; the animation state is untouched and `Valid()` is kept |
| `Animator.BezierCurveAnimator.Step` | src/catmull-rom-spline.ts:100-130 | in the terminal state (`currentSegment >= points.Length - 1`) nothing changes. Otherwise the frame's samples are `FrameSamples` of the current segment and `t` becomes `Advance(t)`. When it wraps to 0, exactly one record `(cp1, cp2, end)` is appended, earlier records stay as they were, and the index grows by one. The appended record ends at its anchor. At the end the log holds `points.Length - 1` records. `Valid()` is kept |

## Left out

- All canvas drawing is left out: `beginPath`, `moveTo`/`lineTo`, `stroke`, `arc`, `fill`, the style settings, `clearRect` and the whole of `drawDots`. They are rendering side effects with no result; a frame's output is modelled as the list of points it strokes.
- `draw()` is not a separate member. Apart from rendering it is one `Step`.
- The DOM lookups, the window `resize` listener and `getBoundingClientRect` are host I/O. The container's width and height are parameters of `Resize` and of the constructor instead.
- `requestAnimationFrame` is host scheduling. The model has a single `Step`, so it does not capture the frame chain or the extra chain that every resize-triggered `draw()` starts.
- Animator.BezierCurveAnimator.constructor: the first `resizeCanvas` call in the source ends with `draw()`, which runs one frame; the constructor models the resize but not that frame.
- Animator.BezierCurveAnimator.Resize: does not perform the closing `draw()` (one more frame). It requires nonzero current canvas dimensions, because with a zero dimension the source divides by zero and gets an infinite or NaN factor, which real arithmetic cannot express.
- IEEE-754 doubles are not modelled; coordinates, `t`, tension and the factors are exact reals. `SegmentTakesFiftyFrames` holds over reals only, because summed 0.02 in doubles need not hit 1.0 exactly. The DOM truncation of `canvas.width`/`height` to integers is not modelled either.
- Anchors are values in an `array<Point>` that the caller shares with the animator. The source's `forEach` (`src/catmull-rom-spline.ts:40-43`) mutates the point objects themselves, so an object that also appears elsewhere sees the change. In particular, a point object that occurs twice in `points` is scaled twice (x·sx², y·sy²), whereas `Resize` scales each index exactly once. That per-object aliasing is not captured.
- `src/main.ts` is invocation glue: ten sample anchors, the constructor and one `draw()`. `src/interfaces.ts` (`IPoint`) is not part of this model; `Point` plays its role.
