/** Curve arithmetic of the Catmull-Rom animator: flipping y against the
    canvas height, deriving the two inner Bezier control points of a segment
    from its neighbouring anchors, and evaluating the cubic Bezier in
    Bernstein form. All coordinates are exact reals. */
module Spline {

  /** A 2D point in canvas space. */
  datatype Point = Point(x: real, y: real)

  /** The cubic Bezier of one segment: its two anchors (y already inverted)
      and the two inner control points between them. */
  datatype Segment = Segment(start: Point, cp1: Point, cp2: Point, end: Point)

  /** Number of subdivisions of [0, 1] used when a frame samples a segment. */
  const Resolution: nat := 1000

  function Sub(p: Point, q: Point): Point { Point(p.x - q.x, p.y - q.y) }

  function Scale(k: real, p: Point): Point { Point(k * p.x, k * p.y) }

  /** The point a fraction u of the way from a to b, on the line through both. */
  function Lerp(a: Point, b: Point, u: real): Point
  {
    Point(Along(a.x, b.x, u), Along(a.y, b.y, u))
  }

  /** The value a fraction u of the way from a to b. */
  function Along(a: real, b: real, u: real): real
  {
    a + u * (b - a)
  }

  /** Measures y from the bottom edge of a canvas of the given height
      instead of from its top edge. */
  function InvertY(height: real, y: real): (r: real)
    ensures r + y == height
  {
    height - y
  }

  lemma InvertYInvolution(height: real, y: real)
    ensures InvertY(height, InvertY(height, y)) == y
  {
  }

  /** An anchor as the curve code sees it: x kept, y inverted. */
  function Flip(height: real, p: Point): (q: Point)
    ensures q.x == p.x && q.y + p.y == height
  {
    Point(p.x, InvertY(height, p.y))
  }

  /** The neighbour before anchor i, clamped to the first anchor. */
  function PrevIndex(i: nat): nat
  {
    if i > 0 then i - 1 else 0
  }

  /** The neighbour after anchor i + 1, clamped to anchor i + 1 itself
      when i + 1 is the last anchor. */
  function NextNextIndex(n: nat, i: nat): nat
  {
    if i + 2 < n then i + 2 else i + 1
  }

  /** The Bezier segment between anchors i and i + 1. Each inner control
      point is displaced from its anchor by tension/6 times the chord
      between that anchor's two neighbours, the missing neighbour at either
      end of the sequence being replaced by the nearest existing anchor. */
  function ControlPoints(pts: seq<Point>, height: real, tension: real, i: nat): (s: Segment)
    requires i + 1 < |pts|
    ensures PrevIndex(i) <= i < i + 1 <= NextNextIndex(|pts|, i) < |pts|
    ensures s.start == Flip(height, pts[i]) && s.end == Flip(height, pts[i + 1])
    ensures Sub(s.cp1, s.start) == Scale(tension / 6.0, Sub(s.end, Flip(height, pts[PrevIndex(i)])))
    ensures Sub(s.end, s.cp2) == Scale(tension / 6.0, Sub(Flip(height, pts[NextNextIndex(|pts|, i)]), s.start))
  {
    var x0 := if i > 0 then pts[i - 1].x else pts[0].x;
    var y0 := if i > 0 then InvertY(height, pts[i - 1].y) else InvertY(height, pts[0].y);
    var x1 := pts[i].x;
    var y1 := InvertY(height, pts[i].y);
    var x2 := pts[i + 1].x;
    var y2 := InvertY(height, pts[i + 1].y);
    var x3 := if i < |pts| - 2 then pts[i + 2].x else x2;
    var y3 := if i < |pts| - 2 then InvertY(height, pts[i + 2].y) else y2;
    var cp1x := x1 + (x2 - x0) / 6.0 * tension;
    var cp1y := y1 + (y2 - y0) / 6.0 * tension;
    var cp2x := x2 - (x3 - x1) / 6.0 * tension;
    var cp2y := y2 - (y3 - y1) / 6.0 * tension;
    Segment(Point(x1, y1), Point(cp1x, cp1y), Point(cp2x, cp2y), Point(x2, y2))
  }

  /** At the first segment the previous neighbour is the start anchor itself,
      so the first control point lies on the chord, tension/6 of the way along. */
  lemma ControlPointsFirstSegment(pts: seq<Point>, height: real, tension: real)
    requires 2 <= |pts|
    ensures var s := ControlPoints(pts, height, tension, 0);
            s.cp1 == Lerp(s.start, s.end, tension / 6.0)
  {
    var s := ControlPoints(pts, height, tension, 0);
    assert Flip(height, pts[PrevIndex(0)]) == s.start;
  }

  /** At the last segment the next-next neighbour is the end anchor itself,
      so the second control point lies on the chord, tension/6 short of the end. */
  lemma ControlPointsLastSegment(pts: seq<Point>, height: real, tension: real)
    requires 2 <= |pts|
    ensures var s := ControlPoints(pts, height, tension, |pts| - 2);
            s.cp2 == Lerp(s.start, s.end, 1.0 - tension / 6.0)
  {
    var s := ControlPoints(pts, height, tension, |pts| - 2);
    assert Flip(height, pts[NextNextIndex(|pts|, |pts| - 2)]) == s.end;
  }

  /** With zero tension both inner control points coincide with their anchors. */
  lemma ControlPointsZeroTension(pts: seq<Point>, height: real, i: nat)
    requires i + 1 < |pts|
    ensures var s := ControlPoints(pts, height, 0.0, i);
            s.cp1 == s.start && s.cp2 == s.end
  {
  }

  /** Reversing the anchors reverses every segment: the reversed sequence's
      segment |pts|-2-i runs from this segment's end to its start with the
      two control points exchanged, for the same tension. */
  lemma ControlPointsReversed(pts: seq<Point>, height: real, tension: real, i: nat)
    requires i + 1 < |pts|
    ensures var s := ControlPoints(pts, height, tension, i);
            var r := ControlPoints(Reversed(pts), height, tension, |pts| - 2 - i);
            r.start == s.end && r.end == s.start && r.cp1 == s.cp2 && r.cp2 == s.cp1
  {
    var n := |pts|;
    var q := Reversed(pts);
    var j := n - 2 - i;
    var s := ControlPoints(pts, height, tension, i);
    var r := ControlPoints(q, height, tension, j);
    assert q[j] == pts[i + 1] && q[j + 1] == pts[i];
    assert q[PrevIndex(j)] == pts[NextNextIndex(n, i)];
    assert q[NextNextIndex(n, j)] == pts[PrevIndex(i)];
  }

  function Reversed(pts: seq<Point>): (r: seq<Point>)
    ensures |r| == |pts|
    ensures forall k :: 0 <= k < |pts| ==> r[k] == pts[|pts| - 1 - k]
  {
    seq(|pts|, k requires 0 <= k < |pts| => pts[|pts| - 1 - k])
  }

  function Square(u: real): real { u * u }

  function Cube(u: real): real { u * u * u }

  /** One coordinate of the cubic Bezier with control values a, b, c, d. */
  function Bezier(t: real, a: real, b: real, c: real, d: real): real
  {
    Cube(1.0 - t) * a + 3.0 * Square(1.0 - t) * t * b + 3.0 * (1.0 - t) * Square(t) * c + Cube(t) * d
  }

  /** The point at parameter t of the cubic Bezier p0, cp1, cp2, p3; it
      interpolates p0 at t = 0 and p3 at t = 1. */
  function BezierPoint(t: real, p0: Point, cp1: Point, cp2: Point, p3: Point): (p: Point)
    ensures t == 0.0 ==> p == p0
    ensures t == 1.0 ==> p == p3
  {
    Point(Bezier(t, p0.x, cp1.x, cp2.x, p3.x), Bezier(t, p0.y, cp1.y, cp2.y, p3.y))
  }

  /** The four Bernstein weights sum to one for every t. */
  lemma BernsteinSum(t: real)
    ensures Cube(1.0 - t) + 3.0 * Square(1.0 - t) * t + 3.0 * (1.0 - t) * Square(t) + Cube(t) == 1.0
  {
    var t2, t3 := t * t, t * t * t;
    assert Cube(1.0 - t) == 1.0 - 3.0 * t + 3.0 * t2 - t3;
    assert 3.0 * Square(1.0 - t) * t == 3.0 * t - 6.0 * t2 + 3.0 * t3;
    assert 3.0 * (1.0 - t) * Square(t) == 3.0 * t2 - 3.0 * t3;
    assert Cube(t) == t3;
  }

  /** Running a curve backwards: parameter t on the reversed control polygon
      gives the point at 1 - t on the original. */
  lemma BezierReversed(t: real, p0: Point, cp1: Point, cp2: Point, p3: Point)
    ensures BezierPoint(t, p3, cp2, cp1, p0) == BezierPoint(1.0 - t, p0, cp1, cp2, p3)
  {
    assert 1.0 - (1.0 - t) == t;
  }

  /** Where along the chord a curve with control points at fractions u1
      and u2 of the chord is at parameter t. */
  function ChordWeight(t: real, u1: real, u2: real): real
  {
    3.0 * Square(1.0 - t) * t * u1 + 3.0 * (1.0 - t) * Square(t) * u2 + Cube(t)
  }

  /** Reversing the anchors traces every segment's curve backwards:
      parameter t on the reversed sequence's segment is parameter 1 - t on
      the original one. */
  lemma CurveReversed(pts: seq<Point>, height: real, tension: real, i: nat, t: real)
    requires i + 1 < |pts|
    ensures var s := ControlPoints(pts, height, tension, i);
            var r := ControlPoints(Reversed(pts), height, tension, |pts| - 2 - i);
            BezierPoint(t, r.start, r.cp1, r.cp2, r.end) == BezierPoint(1.0 - t, s.start, s.cp1, s.cp2, s.end)
  {
    var s := ControlPoints(pts, height, tension, i);
    ControlPointsReversed(pts, height, tension, i);
    BezierReversed(t, s.start, s.cp1, s.cp2, s.end);
  }

  /** A curve whose control points lie on the chord a-d stays on that line. */
  lemma BezierOnChord(t: real, a: Point, d: Point, u1: real, u2: real)
    ensures BezierPoint(t, a, Lerp(a, d, u1), Lerp(a, d, u2), d) == Lerp(a, d, ChordWeight(t, u1, u2))
  {
    BezierAlongLine(t, a.x, d.x, u1, u2);
    BezierAlongLine(t, a.y, d.y, u1, u2);
  }

  lemma BezierAlongLine(t: real, a: real, d: real, u1: real, u2: real)
    ensures Bezier(t, a, Along(a, d, u1), Along(a, d, u2), d) == Along(a, d, ChordWeight(t, u1, u2))
  {
    var b, c := Along(a, d, u1), Along(a, d, u2);
    var b0, b1, b2, b3 := Cube(1.0 - t), 3.0 * Square(1.0 - t) * t, 3.0 * (1.0 - t) * Square(t), Cube(t);
    BernsteinSum(t);
    assert ChordWeight(t, u1, u2) == b1 * u1 + b2 * u2 + b3;
    calc {
      Bezier(t, a, b, c, d);
      b0 * a + b1 * (a + u1 * (d - a)) + b2 * (a + u2 * (d - a)) + b3 * (a + (d - a));
      (b0 + b1 + b2 + b3) * a + (b1 * u1 + b2 * u2 + b3) * (d - a);
      a + (b1 * u1 + b2 * u2 + b3) * (d - a);
    }
  }

  /** For t in [0, 1] the curve stays inside the bounds of its control values. */
  lemma BezierWithinControlBounds(t: real, a: real, b: real, c: real, d: real, lo: real, hi: real)
    requires 0.0 <= t <= 1.0
    requires lo <= a <= hi && lo <= b <= hi && lo <= c <= hi && lo <= d <= hi
    ensures lo <= Bezier(t, a, b, c, d) <= hi
  {
    var u := 1.0 - t;
    var b0, b1, b2, b3 := Cube(u), 3.0 * Square(u) * t, 3.0 * u * Square(t), Cube(t);
    assert 0.0 <= b0 && 0.0 <= b1 && 0.0 <= b2 && 0.0 <= b3 by {
      ProductNonNegative(u, u);
      ProductNonNegative(t, t);
      ProductNonNegative(u * u, u);
      ProductNonNegative(3.0 * Square(u), t);
      ProductNonNegative(3.0 * u, Square(t));
      ProductNonNegative(t * t, t);
    }
    assert b0 + b1 + b2 + b3 == 1.0 by {
      BernsteinSum(t);
    }
    ConvexCombinationBound(b0, b1, b2, b3, a, b, c, d, lo, hi);
  }

  lemma ConvexCombinationBound(b0: real, b1: real, b2: real, b3: real, a: real, b: real, c: real, d: real, lo: real, hi: real)
    requires 0.0 <= b0 && 0.0 <= b1 && 0.0 <= b2 && 0.0 <= b3 && b0 + b1 + b2 + b3 == 1.0
    requires lo <= a <= hi && lo <= b <= hi && lo <= c <= hi && lo <= d <= hi
    ensures lo <= b0 * a + b1 * b + b2 * c + b3 * d <= hi
  {
    WeightedBound(b0, a, lo, hi);
    WeightedBound(b1, b, lo, hi);
    WeightedBound(b2, c, lo, hi);
    WeightedBound(b3, d, lo, hi);
    SumBetween(b0 * lo, b1 * lo, b2 * lo, b3 * lo, b0 * a, b1 * b, b2 * c, b3 * d, b0 * hi, b1 * hi, b2 * hi, b3 * hi);
    WeightsSumToOne(b0, b1, b2, b3, lo);
    WeightsSumToOne(b0, b1, b2, b3, hi);
  }

  lemma SumBetween(l0: real, l1: real, l2: real, l3: real, m0: real, m1: real, m2: real, m3: real,
                   h0: real, h1: real, h2: real, h3: real)
    requires l0 <= m0 <= h0 && l1 <= m1 <= h1 && l2 <= m2 <= h2 && l3 <= m3 <= h3
    ensures l0 + l1 + l2 + l3 <= m0 + m1 + m2 + m3 <= h0 + h1 + h2 + h3
  {
  }

  lemma WeightsSumToOne(b0: real, b1: real, b2: real, b3: real, v: real)
    requires b0 + b1 + b2 + b3 == 1.0
    ensures b0 * v + b1 * v + b2 * v + b3 * v == v
  {
    assert b0 * v + b1 * v + b2 * v + b3 * v == (b0 + b1 + b2 + b3) * v;
  }

  lemma WeightedBound(w: real, v: real, lo: real, hi: real)
    requires 0.0 <= w && lo <= v <= hi
    ensures w * lo <= w * v <= w * hi
  {
    ProductNonNegative(w, v - lo);
    ProductNonNegative(w, hi - v);
  }

  lemma ProductNonNegative(p: real, q: real)
    requires 0.0 <= p && 0.0 <= q
    ensures 0.0 <= p * q
  {
  }

  /** With two anchors both neighbour clamps fire: both control points lie
      on the chord between the anchors, and so does every point of the curve. */
  lemma TwoAnchorsGiveStraightSegment(pts: seq<Point>, height: real, tension: real, t: real)
    requires |pts| == 2
    ensures var s := ControlPoints(pts, height, tension, 0);
            s.cp1 == Lerp(s.start, s.end, tension / 6.0) &&
            s.cp2 == Lerp(s.start, s.end, 1.0 - tension / 6.0) &&
            exists u :: BezierPoint(t, s.start, s.cp1, s.cp2, s.end) == Lerp(s.start, s.end, u)
  {
    var s := ControlPoints(pts, height, tension, 0);
    ControlPointsFirstSegment(pts, height, tension);
    ControlPointsLastSegment(pts, height, tension);
    var u := ChordWeight(t, tension / 6.0, 1.0 - tension / 6.0);
    BezierOnChord(t, s.start, s.end, tension / 6.0, 1.0 - tension / 6.0);
    assert BezierPoint(t, s.start, s.cp1, s.cp2, s.end) == Lerp(s.start, s.end, u);
  }

  /** Anchors (0,0), (10,0), (20,0), tension 1, height 0: the first
      segment's control points are (10/6, 0) and (40/6, 0). */
  lemma CollinearExampleControlPoints()
    ensures ControlPoints([Point(0.0, 0.0), Point(10.0, 0.0), Point(20.0, 0.0)], 0.0, 1.0, 0)
            == Segment(Point(0.0, 0.0), Point(10.0 / 6.0, 0.0), Point(40.0 / 6.0, 0.0), Point(10.0, 0.0))
  {
    var pts := [Point(0.0, 0.0), Point(10.0, 0.0), Point(20.0, 0.0)];
    assert pts[0] == Point(0.0, 0.0) && pts[1] == Point(10.0, 0.0) && pts[2] == Point(20.0, 0.0);
  }

  /** The midpoint of that segment is (4.375, 0), on the line y = 0. */
  lemma CollinearExampleMidpoint()
    ensures BezierPoint(0.5, Point(0.0, 0.0), Point(10.0 / 6.0, 0.0), Point(40.0 / 6.0, 0.0), Point(10.0, 0.0))
            == Point(4.375, 0.0)
  {
    assert Cube(0.5) == 0.125 && Square(0.5) == 0.25;
    assert Bezier(0.5, 0.0, 10.0 / 6.0, 40.0 / 6.0, 10.0) == 4.375;
    assert Bezier(0.5, 0.0, 0.0, 0.0, 0.0) == 0.0;
  }

  /** Sample k of a frame: the curve at parameter k / Resolution. */
  function SampleAt(s: Segment, k: nat): Point
  {
    BezierPoint(k as real / Resolution as real, s.start, s.cp1, s.cp2, s.end)
  }

  /** The number of grid parameters k / Resolution, k >= 0, that do not exceed t. */
  function SampleCount(t: real): (n: nat)
    ensures 0.0 <= t ==> n == (t * Resolution as real).Floor + 1
    ensures n == 0 || ((n - 1) as real <= t * Resolution as real < n as real)
  {
    if t < 0.0 then 0 else (t * Resolution as real).Floor + 1
  }

  /** The points a frame draws for a segment whose animation has reached t:
      the curve sampled on the grid k / Resolution from 0 up to t. */
  function FrameSamples(s: Segment, t: real): (ps: seq<Point>)
    ensures |ps| == SampleCount(t)
    ensures 0.0 <= t ==> ps[0] == s.start
    ensures forall k :: 0 <= k < |ps| ==> ps[k] == SampleAt(s, k)
  {
    seq(SampleCount(t), k requires 0 <= k => SampleAt(s, k))
  }
}
