/** The stateful part of the animator: the anchors it owns, the canvas size,
    the position of the animation (segment index and curve parameter t) and
    the append-only log of finished segments. Drawing calls are not modelled;
    a frame's output is the list of curve samples it would stroke. */
module Animator {
  import opened Spline

  /** What the animator records for a finished segment: its two inner
      control points and its end anchor (y inverted). */
  datatype DrawnSegment = DrawnSegment(cp1: Point, cp2: Point, end: Point)

  /** Amount by which t advances per frame. */
  const StepSize: real := 0.02

  function Logged(s: Segment): DrawnSegment
  {
    DrawnSegment(s.cp1, s.cp2, s.end)
  }

  /** The curve parameter after one frame: advanced by StepSize, and reset
      to 0 (the segment is finished) once it reaches 1. */
  function Advance(t: real): (r: real)
    ensures 0.0 <= t < 1.0 ==> 0.0 <= r < 1.0
    ensures 0.0 <= t ==> (r == 0.0 <==> 1.0 <= t + StepSize)
    ensures r != 0.0 ==> r == t + StepSize
  {
    if t + StepSize >= 1.0 then 0.0 else t + StepSize
  }

  /** The curve parameter after n frames, starting from t. */
  function AdvanceN(t: real, n: nat): real
  {
    if n == 0 then t else Advance(AdvanceN(t, n - 1))
  }

  lemma {:induction false} FramesBeforeWrap(n: nat)
    requires n < 50
    ensures AdvanceN(0.0, n) == n as real * StepSize
  {
    if n > 0 {
      FramesBeforeWrap(n - 1);
    }
  }

  /** Over exact reals a segment started at t = 0 is finished by its 50th
      frame and by no earlier one. */
  lemma SegmentTakesFiftyFrames()
    ensures forall n :: 0 < n < 50 ==> AdvanceN(0.0, n) != 0.0
    ensures AdvanceN(0.0, 50) == 0.0
  {
    forall n | 0 < n < 50
      ensures AdvanceN(0.0, n) != 0.0
    {
      FramesBeforeWrap(n);
    }
    FramesBeforeWrap(49);
  }

  /** Samples one frame of a segment: the curve at i / Resolution for every
      i with i / Resolution <= t. */
  method SampleFrame(s: Segment, t: real) returns (samples: seq<Point>)
    ensures samples == FrameSamples(s, t)
  {
    samples := [];
    var i: nat := 0;
    while i as real <= t * Resolution as real
      invariant i <= SampleCount(t)
      invariant samples == FrameSamples(s, t)[..i]
      decreases SampleCount(t) - i
    {
      var progressT := i as real / Resolution as real;
      samples := samples + [BezierPoint(progressT, s.start, s.cp1, s.cp2, s.end)];
      i := i + 1;
    }
  }

  function ScaledPoint(p: Point, sx: real, sy: real): Point
  {
    Point(p.x * sx, p.y * sy)
  }

  /** A dimension multiplied by the factor new / old becomes new. */
  lemma FactorScalesBack(current: real, target: real)
    requires current != 0.0
    ensures current * (target / current) == target
  {
  }

  /** Every anchor with x multiplied by sx and y by sy, order and length kept. */
  function Rescaled(pts: seq<Point>, sx: real, sy: real): seq<Point>
  {
    seq(|pts|, k requires 0 <= k < |pts| => ScaledPoint(pts[k], sx, sy))
  }

  /** Resizing to the current size changes no anchor. */
  lemma RescaledByOne(pts: seq<Point>)
    ensures Rescaled(pts, 1.0, 1.0) == pts
  {
    var r := Rescaled(pts, 1.0, 1.0);
    assert forall k :: 0 <= k < |pts| ==> r[k] == pts[k];
  }

  /** Two resizes compound: the second scales the result of the first. */
  lemma RescaledTwice(pts: seq<Point>, sx1: real, sy1: real, sx2: real, sy2: real)
    ensures Rescaled(Rescaled(pts, sx1, sy1), sx2, sy2) == Rescaled(pts, sx1 * sx2, sy1 * sy2)
  {
    var r1 := Rescaled(Rescaled(pts, sx1, sy1), sx2, sy2);
    var r2 := Rescaled(pts, sx1 * sx2, sy1 * sy2);
    forall k | 0 <= k < |pts|
      ensures r1[k] == r2[k]
    {
      assert pts[k].x * sx1 * sx2 == pts[k].x * (sx1 * sx2);
      assert pts[k].y * sy1 * sy2 == pts[k].y * (sy1 * sy2);
    }
  }

  /** Resizing from an old canvas to a new one keeps each anchor's position
      relative to the canvas: its coordinates as fractions of the canvas
      width and height are unchanged. */
  lemma RescaleKeepsRelativePosition(pts: seq<Point>, oldW: real, oldH: real, w: real, h: real, k: nat)
    requires oldW != 0.0 && oldH != 0.0 && w != 0.0 && h != 0.0
    requires k < |pts|
    ensures Rescaled(pts, w / oldW, h / oldH)[k].x / w == pts[k].x / oldW
    ensures Rescaled(pts, w / oldW, h / oldH)[k].y / h == pts[k].y / oldH
  {
    var p := Rescaled(pts, w / oldW, h / oldH)[k];
    assert p.x == pts[k].x * (w / oldW);
    assert p.y == pts[k].y * (h / oldH);
  }


  /** The segment with every one of its four points scaled. */
  function ScaledSegment(s: Segment, sx: real, sy: real): Segment
  {
    Segment(ScaledPoint(s.start, sx, sy), ScaledPoint(s.cp1, sx, sy), ScaledPoint(s.cp2, sx, sy), ScaledPoint(s.end, sx, sy))
  }

  /** After a resize by (sx, sy), each segment's control points, computed
      against the new canvas height, are the old ones scaled by (sx, sy):
      the curve is stretched with the canvas, not reshaped. */
  lemma ControlPointsRescaled(pts: seq<Point>, height: real, tension: real, i: nat, sx: real, sy: real)
    requires i + 1 < |pts|
    ensures ControlPoints(Rescaled(pts, sx, sy), height * sy, tension, i)
            == ScaledSegment(ControlPoints(pts, height, tension, i), sx, sy)
  {
    var q := Rescaled(pts, sx, sy);
    var s := ControlPoints(pts, height, tension, i);
    var r := ControlPoints(q, height * sy, tension, i);
    var a, b := PrevIndex(i), NextNextIndex(|pts|, i);
    FlipRescaled(pts, height, sx, sy, i);
    FlipRescaled(pts, height, sx, sy, i + 1);
    FlipRescaled(pts, height, sx, sy, a);
    FlipRescaled(pts, height, sx, sy, b);
    assert r.cp1 == ScaledPoint(s.cp1, sx, sy) by {
      ScaledOffset(s.cp1, s.start, s.end, Flip(height, pts[a]), tension, sx, sy);
    }
    assert r.cp2 == ScaledPoint(s.cp2, sx, sy) by {
      ScaledOffset(s.end, s.cp2, Flip(height, pts[b]), s.start, tension, sx, sy);
    }
  }

  /** Flipping a rescaled anchor against the rescaled height is scaling the
      flipped anchor. */
  lemma FlipRescaled(pts: seq<Point>, height: real, sx: real, sy: real, j: nat)
    requires j < |pts|
    ensures Flip(height * sy, Rescaled(pts, sx, sy)[j]) == ScaledPoint(Flip(height, pts[j]), sx, sy)
  {
    assert height * sy - pts[j].y * sy == (height - pts[j].y) * sy;
  }

  /** If c - p == k (e - f), then scaling p, e and f scales c. */
  lemma ScaledOffset(c: Point, p: Point, e: Point, f: Point, tension: real, sx: real, sy: real)
    requires Sub(c, p) == Scale(tension / 6.0, Sub(e, f))
    ensures Sub(ScaledPoint(c, sx, sy), ScaledPoint(p, sx, sy))
            == Scale(tension / 6.0, Sub(ScaledPoint(e, sx, sy), ScaledPoint(f, sx, sy)))
  {
    assert c.x * sx - p.x * sx == (c.x - p.x) * sx;
    assert c.y * sy - p.y * sy == (c.y - p.y) * sy;
    assert tension / 6.0 * (e.x * sx - f.x * sx) == tension / 6.0 * (e.x - f.x) * sx;
    assert tension / 6.0 * (e.y * sy - f.y * sy) == tension / 6.0 * (e.y - f.y) * sy;
  }

  /** The animator: it owns the anchors (rescaled in place on resize) and
      advances through the segments one frame at a time. */
  class BezierCurveAnimator {
    const points: array<Point>
    const tension: real
    var canvasWidth: real
    var canvasHeight: real
    var currentSegment: nat
    var t: real
    var drawnSegments: seq<DrawnSegment>
    var scaleX: real
    var scaleY: real

    /** The animation position is inside the anchor sequence, t is in
        [0, 1), and one record has been logged per finished segment. */
    ghost predicate Valid()
      reads this
    {
      0.0 <= t < 1.0 &&
      |drawnSegments| == currentSegment &&
      (currentSegment == 0 || currentSegment <= points.Length - 1)
    }

    /** The terminal state: there is no segment left to draw. */
    predicate Done()
      reads this
    {
      currentSegment >= points.Length - 1
    }

    /** Takes the anchors, fits the canvas of the given size to the
        container's width and height (as the initial resize does), and
        starts at segment 0 with t = 0. */
    constructor (points: array<Point>, canvasWidth: real, canvasHeight: real, width: real, height: real, tension: real := 1.0)
      requires canvasWidth != 0.0 && canvasHeight != 0.0
      modifies points
      ensures Valid()
      ensures this.points == points && this.tension == tension
      ensures currentSegment == 0 && t == 0.0 && drawnSegments == []
      ensures this.canvasWidth == width && this.canvasHeight == height
      ensures scaleX == width / canvasWidth && scaleY == height / canvasHeight
      ensures points[..] == Rescaled(old(points[..]), scaleX, scaleY)
    {
      this.points := points;
      this.tension := tension;
      this.canvasWidth := canvasWidth;
      this.canvasHeight := canvasHeight;
      currentSegment := 0;
      t := 0.0;
      drawnSegments := [];
      scaleX := 1.0;
      scaleY := 1.0;
      new;
      Resize(width, height);
    }

    /** Fits the canvas to a container of the given size: computes the two
        scale factors against the current canvas size, scales the canvas
        and every anchor in place. The animation state is untouched. */
    method Resize(width: real, height: real)
      requires Valid()
      requires canvasWidth != 0.0 && canvasHeight != 0.0
      modifies this, points
      ensures Valid()
      ensures scaleX == width / old(canvasWidth) && scaleY == height / old(canvasHeight)
      ensures canvasWidth == width && canvasHeight == height
      ensures points[..] == Rescaled(old(points[..]), scaleX, scaleY)
      ensures width == old(canvasWidth) && height == old(canvasHeight) ==> points[..] == old(points[..])
      ensures t == old(t) && currentSegment == old(currentSegment) && drawnSegments == old(drawnSegments)
    {
      scaleX := width / canvasWidth;
      scaleY := height / canvasHeight;
      FactorScalesBack(canvasWidth, width);
      FactorScalesBack(canvasHeight, height);
      canvasWidth := canvasWidth * scaleX;
      canvasHeight := canvasHeight * scaleY;
      var sx, sy := scaleX, scaleY;
      var k := 0;
      while k < points.Length
        modifies points
        invariant 0 <= k <= points.Length
        invariant forall j :: 0 <= j < k ==> points[j] == ScaledPoint(old(points[j]), sx, sy)
        invariant forall j :: k <= j < points.Length ==> points[j] == old(points[j])
      {
        points[k] := ScaledPoint(points[k], sx, sy);
        k := k + 1;
      }
      assert forall j :: 0 <= j < points.Length ==> points[..][j] == Rescaled(old(points[..]), sx, sy)[j];
      assert points[..] == Rescaled(old(points[..]), sx, sy);
      if width == old(canvasWidth) && height == old(canvasHeight) {
        assert sx == 1.0 by { FactorScalesBack(width, width); }
        assert sy == 1.0 by { FactorScalesBack(height, height); }
        RescaledByOne(old(points[..]));
      }
    }

    /** One frame of the animation. In the terminal state nothing changes.
        Otherwise the current segment is sampled from 0 up to t, t advances
        by StepSize, and when it reaches 1 it resets to 0, the finished
        segment is appended to the log and the next segment becomes current. */
    method Step() returns (samples: seq<Point>)
      requires Valid()
      modifies this
      ensures Valid()
      ensures canvasWidth == old(canvasWidth) && canvasHeight == old(canvasHeight)
      ensures scaleX == old(scaleX) && scaleY == old(scaleY)
      ensures old(Done()) ==>
                samples == [] && t == old(t) && currentSegment == old(currentSegment) &&
                drawnSegments == old(drawnSegments)
      ensures !old(Done()) ==>
                var s := ControlPoints(points[..], canvasHeight, tension, old(currentSegment));
                samples == FrameSamples(s, old(t)) &&
                t == Advance(old(t)) &&
                if t == 0.0 then
                  drawnSegments == old(drawnSegments) + [Logged(s)] &&
                  currentSegment == old(currentSegment) + 1
                else
                  drawnSegments == old(drawnSegments) && currentSegment == old(currentSegment)
      ensures |drawnSegments| > old(|drawnSegments|) ==>
                drawnSegments[currentSegment - 1].end == Flip(canvasHeight, points[currentSegment])
      ensures Done() && points.Length > 0 ==> |drawnSegments| == points.Length - 1
    {
      if Done() {
        return [];
      }
      var s := ControlPoints(points[..], canvasHeight, tension, currentSegment);
      samples := SampleFrame(s, t);
      t := t + StepSize;
      if t >= 1.0 {
        t := 0.0;
        drawnSegments := drawnSegments + [Logged(s)];
        currentSegment := currentSegment + 1;
      }
    }
  }
}
