/** The tapered diagram: a copy of a polyline that remembers, per segment,
    its original length, an editable "tapered" length and a frozen angle.
    The first segment's angle is its absolute direction and every later one
    is the turn from the segment before, so the points can be rebuilt from
    the lengths alone.  Angles are in radians. */
module TaperedStore {
  import opened Types
  import opened HostMath
  import GeometryUtils

  datatype TaperedSegment = TaperedSegment(
    originalLength: real,
    taperedLength: real,
    angle: real,
    startPoint: Point,
    endPoint: Point)

  /** A diagram derived from a drawing; its generated id, name and
      timestamps are not part of the model. */
  datatype TaperedDiagram = TaperedDiagram(
    originalDrawingId: string,
    segments: seq<TaperedSegment>,
    points: seq<Point>)

  datatype CanvasMode = Original | Tapered

  // ---------------------------------------------------------------------
  // Rebuilding the points from the segments
  // ---------------------------------------------------------------------

  /** The running direction of segment i: the sum of the stored angles of
      segments 0..i. */
  function Heading(segments: seq<TaperedSegment>, i: nat): real
    requires i < |segments|
  {
    if i == 0 then segments[0].angle else Heading(segments, i - 1) + segments[i].angle
  }

  /** The point `len` away from p in direction `heading`. */
  function Advance(m: MathLib, p: Point, heading: real, len: real): Point
  {
    Point(p.x + m.cos(heading) * len, p.y + m.sin(heading) * len)
  }

  /** The first n + 1 rebuilt points. */
  function PointsUpTo(m: MathLib, segments: seq<TaperedSegment>, n: nat): (r: seq<Point>)
    requires 0 < |segments| && n <= |segments|
    ensures |r| == n + 1
  {
    if n == 0 then [segments[0].startPoint]
    else
      var ps := PointsUpTo(m, segments, n - 1);
      ps + [Advance(m, ps[n - 1], Heading(segments, n - 1), segments[n - 1].taperedLength)]
  }

  /** `recalculatePoints` as a value. */
  ghost function Recalculated(m: MathLib, segments: seq<TaperedSegment>): seq<Point>
  {
    if |segments| == 0 then [] else PointsUpTo(m, segments, |segments|)
  }

  /** `recalculatePoints`: walks the segments with a running angle. */
  method RecalculatePoints(m: MathLib, segments: seq<TaperedSegment>) returns (points: seq<Point>)
    ensures points == Recalculated(m, segments)
  {
    if |segments| == 0 {
      return [];
    }
    points := [segments[0].startPoint];
    var currentAngle := segments[0].angle;
    var i := 0;
    while i < |segments|
      invariant 0 <= i <= |segments|
      invariant points == PointsUpTo(m, segments, i)
      invariant 0 < i ==> currentAngle == Heading(segments, i - 1)
    {
      var segment := segments[i];
      var startPoint := points[i];
      if i == 0 {
        currentAngle := segment.angle;
      } else {
        currentAngle := currentAngle + segment.angle;
      }
      var endPoint := Advance(m, startPoint, currentAngle, segment.taperedLength);
      points := points + [endPoint];
      i := i + 1;
    }
  }

  /** Point k of a longer prefix is point k of a shorter one. */
  lemma {:induction false} PointsUpToPrefix(m: MathLib, segments: seq<TaperedSegment>, n: nat, k: nat)
    requires 0 < |segments| && k <= n <= |segments|
    ensures PointsUpTo(m, segments, n)[k] == PointsUpTo(m, segments, k)[k]
  {
    if n > k {
      PointsUpToPrefix(m, segments, n - 1, k);
    }
  }

  /** No segments give no points; otherwise there is one point more than
      there are segments, the first is the first segment's start, and each
      next point is the previous one advanced by that segment's tapered
      length along the running sum of the stored angles. */
  lemma RecalculatedShape(m: MathLib, segments: seq<TaperedSegment>)
    ensures |segments| == 0 ==> Recalculated(m, segments) == []
    ensures 0 < |segments| ==> |Recalculated(m, segments)| == |segments| + 1
    ensures 0 < |segments| ==> Recalculated(m, segments)[0] == segments[0].startPoint
    ensures forall i :: 0 <= i < |segments| ==>
      Recalculated(m, segments)[i + 1]
        == Advance(m, Recalculated(m, segments)[i], Heading(segments, i), segments[i].taperedLength)
  {
    if 0 < |segments| {
      var r := Recalculated(m, segments);
      PointsUpToPrefix(m, segments, |segments|, 0);
      forall i | 0 <= i < |segments|
        ensures r[i + 1] == Advance(m, r[i], Heading(segments, i), segments[i].taperedLength)
      {
        PointsUpToPrefix(m, segments, |segments|, i + 1);
        PointsUpToPrefix(m, segments, |segments|, i);
        PointsUpToPrefix(m, segments, i + 1, i);
      }
    }
  }

  /** Each rebuilt segment is as long as its tapered length says. */
  lemma AdvanceLength(m: MathLib, p: Point, heading: real, len: real)
    requires Lawful(m)
    ensures SqDist(p, Advance(m, p, heading, len)) == Sq(len)
    ensures GeometryUtils.GetSegmentLength(m, p, Advance(m, p, heading, len)) == GeometryUtils.Abs(len)
  {
    var c, s := m.cos(heading), m.sin(heading);
    CosSinUnit(m, heading);
    assert Advance(m, p, heading, len) == Point(c * len + p.x, s * len + p.y);
    GeometryUtils.DisplacedByUnit(p.x, p.y, c, s, len);
    GeometryUtils.SqAbs(len);
    GeometryUtils.LengthFromSquare(m, p, Advance(m, p, heading, len), GeometryUtils.Abs(len));
  }

  /** The running direction depends only on the stored angles. */
  lemma {:induction false} HeadingFromAngles(s: seq<TaperedSegment>, t: seq<TaperedSegment>, i: nat)
    requires i < |s| == |t|
    requires forall j :: 0 <= j < |s| ==> s[j].angle == t[j].angle
    ensures Heading(s, i) == Heading(t, i)
  {
    if i > 0 {
      HeadingFromAngles(s, t, i - 1);
    }
  }

  lemma {:induction false} PointsUpToFromAnglesAndLengths(m: MathLib, s: seq<TaperedSegment>, t: seq<TaperedSegment>, n: nat)
    requires 0 < |s| == |t| && n <= |s| && s[0].startPoint == t[0].startPoint
    requires forall j :: 0 <= j < |s| ==> s[j].angle == t[j].angle && s[j].taperedLength == t[j].taperedLength
    ensures PointsUpTo(m, s, n) == PointsUpTo(m, t, n)
  {
    if n > 0 {
      PointsUpToFromAnglesAndLengths(m, s, t, n - 1);
      HeadingFromAngles(s, t, n - 1);
    }
  }

  /** The rebuilt points depend only on the first start point, the stored
      angles and the tapered lengths: original lengths and the other
      recorded start/end points play no part. */
  lemma RecalculatedFromAnglesAndLengths(m: MathLib, s: seq<TaperedSegment>, t: seq<TaperedSegment>)
    requires |s| == |t| && (0 < |s| ==> s[0].startPoint == t[0].startPoint)
    requires forall j :: 0 <= j < |s| ==> s[j].angle == t[j].angle && s[j].taperedLength == t[j].taperedLength
    ensures Recalculated(m, s) == Recalculated(m, t)
  {
    if 0 < |s| {
      PointsUpToFromAnglesAndLengths(m, s, t, |s|);
    }
  }

  // ---------------------------------------------------------------------
  // Creating a diagram from a polyline
  // ---------------------------------------------------------------------

  /** The atan2 direction of p -> q. */
  function Direction(m: MathLib, p: Point, q: Point): real
  {
    m.atan2(q.y - p.y, q.x - p.x)
  }

  /** The stored angle of segment i: its direction for i = 0, otherwise the
      change of direction from segment i - 1, plus one full turn when that
      change is negative. */
  function SegmentAngle(m: MathLib, points: seq<Point>, i: nat): real
    requires i + 1 < |points|
  {
    if i == 0 then Direction(m, points[0], points[1])
    else
      var turn := Direction(m, points[i], points[i + 1]) - Direction(m, points[i - 1], points[i]);
      if turn < 0.0 then turn + 2.0 * m.pi else turn
  }

  /** Segment i of a new diagram. */
  function SegmentOf(m: MathLib, points: seq<Point>, i: nat): TaperedSegment
    requires i + 1 < |points|
  {
    var len := GeometryUtils.GetSegmentLength(m, points[i], points[i + 1]);
    TaperedSegment(len, len, SegmentAngle(m, points, i), points[i], points[i + 1])
  }

  /** The first n segments of a new diagram. */
  function SegmentsUpTo(m: MathLib, points: seq<Point>, n: nat): (r: seq<TaperedSegment>)
    requires n < |points|
    ensures |r| == n
  {
    if n == 0 then [] else SegmentsUpTo(m, points, n - 1) + [SegmentOf(m, points, n - 1)]
  }

  /** All segments of a new diagram: one per pair of consecutive points. */
  function TaperedSegments(m: MathLib, points: seq<Point>): seq<TaperedSegment>
  {
    if |points| == 0 then [] else SegmentsUpTo(m, points, |points| - 1)
  }

  /** The segment loop of `createTaperedDiagram`. */
  method BuildTaperedSegments(m: MathLib, points: seq<Point>) returns (segments: seq<TaperedSegment>)
    ensures segments == TaperedSegments(m, points)
  {
    segments := [];
    if |points| == 0 {
      return;
    }
    var i := 0;
    while i < |points| - 1
      invariant 0 <= i <= |points| - 1
      invariant segments == SegmentsUpTo(m, points, i)
    {
      var segment := MakeSegment(m, points, i);
      segments := segments + [segment];
      i := i + 1;
    }
  }

  /** The body of the segment loop: measures segment i and works out its
      angle. */
  method MakeSegment(m: MathLib, points: seq<Point>, i: nat) returns (segment: TaperedSegment)
    requires i + 1 < |points|
    ensures segment == SegmentOf(m, points, i)
  {
    var startPoint := points[i];
    var endPoint := points[i + 1];
    var originalLength := GeometryUtils.GetSegmentLength(m, startPoint, endPoint);
    var angle := 0.0;
    if i == 0 {
      angle := m.atan2(endPoint.y - startPoint.y, endPoint.x - startPoint.x);
    } else {
      var prevPoint := points[i - 1];
      var currentPoint := points[i];
      var nextPoint := points[i + 1];
      var prevAngle := m.atan2(currentPoint.y - prevPoint.y, currentPoint.x - prevPoint.x);
      var nextAngle := m.atan2(nextPoint.y - currentPoint.y, nextPoint.x - currentPoint.x);
      angle := nextAngle - prevAngle;
      if angle < 0.0 {
        angle := angle + 2.0 * m.pi;
      }
    }
    segment := TaperedSegment(originalLength, originalLength, angle, startPoint, endPoint);
  }

  lemma {:induction false} SegmentsUpToAt(m: MathLib, points: seq<Point>, n: nat, i: nat)
    requires i < n < |points|
    ensures SegmentsUpTo(m, points, n)[i] == SegmentOf(m, points, i)
  {
    if i < n - 1 {
      SegmentsUpToAt(m, points, n - 1, i);
    }
  }

  /** A line of n >= 1 points gives n - 1 segments; segment i runs from
      point i to point i + 1, its tapered length starts equal to its
      original length, which is the distance between those points, and its
      angle is `SegmentAngle`. */
  lemma TaperedSegmentsLaws(m: MathLib, points: seq<Point>)
    ensures |points| <= 1 ==> TaperedSegments(m, points) == []
    ensures 1 <= |points| ==> |TaperedSegments(m, points)| == |points| - 1
    ensures forall i :: 0 <= i < |points| - 1 ==>
      && TaperedSegments(m, points)[i].startPoint == points[i]
      && TaperedSegments(m, points)[i].endPoint == points[i + 1]
      && TaperedSegments(m, points)[i].originalLength == GeometryUtils.GetSegmentLength(m, points[i], points[i + 1])
      && TaperedSegments(m, points)[i].taperedLength == TaperedSegments(m, points)[i].originalLength
      && TaperedSegments(m, points)[i].angle == SegmentAngle(m, points, i)
  {
    forall i | 0 <= i < |points| - 1
      ensures TaperedSegments(m, points)[i] == SegmentOf(m, points, i)
    {
      SegmentsUpToAt(m, points, |points| - 1, i);
    }
  }

  /** The first angle is a direction in (-pi, pi]; every later one is a turn
      normalised into [0, 2 pi). */
  lemma SegmentAngleRange(m: MathLib, points: seq<Point>, i: nat)
    requires Lawful(m) && i + 1 < |points|
    ensures i == 0 ==> -m.pi < SegmentAngle(m, points, i) <= m.pi
    ensures 0 < i ==> 0.0 <= SegmentAngle(m, points, i) < 2.0 * m.pi
  {
    Atan2InRange(m, points[i + 1].y - points[i].y, points[i + 1].x - points[i].x);
    if 0 < i {
      Atan2InRange(m, points[i].y - points[i - 1].y, points[i].x - points[i - 1].x);
    }
  }

  /** In a new diagram the running direction of segment i is the direction
      of that segment up to whole turns. */
  lemma {:induction false} HeadingIsDirection(m: MathLib, points: seq<Point>, i: nat) returns (k: nat)
    requires i + 1 < |points|
    ensures Heading(TaperedSegments(m, points), i) == Direction(m, points[i], points[i + 1]) + Turns(m, k)
  {
    TaperedSegmentEnds(m, points, i);
    if i == 0 {
      k := 0;
    } else {
      var k0 := HeadingIsDirection(m, points, i - 1);
      if Direction(m, points[i], points[i + 1]) - Direction(m, points[i - 1], points[i]) < 0.0 {
        k := k0 + 1;
      } else {
        k := k0;
      }
    }
  }

  /** One step of the rebuild retraces segment i of the original line. */
  lemma AdvanceRetraces(m: MathLib, p: Point, q: Point, k: nat)
    requires Lawful(m)
    ensures Advance(m, p, Direction(m, p, q) + Turns(m, k), GeometryUtils.GetSegmentLength(m, p, q)) == q
  {
    var dx, dy := q.x - p.x, q.y - p.y;
    var t := m.atan2(dy, dx);
    Periodic(m, t, k);
    Polar(m, dy, dx);
    var n := Norm(m, dx, dy);
    assert m.cos(t) * n == dx && m.sin(t) * n == dy;
  }

  /** Extending a correct rebuild prefix by a segment that retraces the
      next edge stays correct. */
  lemma RebuildStep(m: MathLib, points: seq<Point>, segs: seq<TaperedSegment>, n: nat, k: nat)
    requires Lawful(m) && 0 < n < |points| && |segs| == |points| - 1
    requires segs[n - 1].taperedLength == GeometryUtils.GetSegmentLength(m, points[n - 1], points[n])
    requires Heading(segs, n - 1) == Direction(m, points[n - 1], points[n]) + Turns(m, k)
    requires PointsUpTo(m, segs, n - 1) == points[..n]
    ensures PointsUpTo(m, segs, n) == points[..n + 1]
  {
    var p := PointsUpTo(m, segs, n - 1);
    assert p[n - 1] == points[n - 1];
    AdvanceRetraces(m, points[n - 1], points[n], k);
    assert points[..n + 1] == points[..n] + [points[n]];
  }

  lemma {:induction false} RebuildPrefix(m: MathLib, points: seq<Point>, n: nat)
    requires Lawful(m) && 2 <= |points| && n < |points|
    ensures PointsUpTo(m, TaperedSegments(m, points), n) == points[..n + 1]
  {
    var segs := TaperedSegments(m, points);
    if n == 0 {
      TaperedSegmentEnds(m, points, 0);
    } else {
      RebuildPrefix(m, points, n - 1);
      var k := HeadingIsDirection(m, points, n - 1);
      TaperedSegmentEnds(m, points, n - 1);
      RebuildStep(m, points, segs, n, k);
    }
  }

  /** Where segment i of a new diagram starts, and its tapered length. */
  lemma TaperedSegmentEnds(m: MathLib, points: seq<Point>, i: nat)
    requires i + 1 < |points|
    ensures |TaperedSegments(m, points)| == |points| - 1
    ensures TaperedSegments(m, points)[i].startPoint == points[i]
    ensures TaperedSegments(m, points)[i].taperedLength == GeometryUtils.GetSegmentLength(m, points[i], points[i + 1])
    ensures TaperedSegments(m, points)[i].angle == SegmentAngle(m, points, i)
  {
    SegmentsUpToAt(m, points, |points| - 1, i);
  }

  /** Rebuilding a freshly created diagram gives back the original points:
      the frozen turn angles add up to each segment's direction, up to
      whole turns. */
  lemma CreatedReproducesPoints(m: MathLib, points: seq<Point>)
    requires Lawful(m) && 2 <= |points|
    ensures Recalculated(m, TaperedSegments(m, points)) == points
  {
    RebuildPrefix(m, points, |points| - 1);
    assert points[..|points|] == points;
  }

  // ---------------------------------------------------------------------
  // Editing a tapered length
  // ---------------------------------------------------------------------

  /** Segments whose start and end are taken from the rebuilt points. */
  function WithEndpoints(segments: seq<TaperedSegment>, points: seq<Point>): seq<TaperedSegment>
    requires |segments| < |points|
  {
    seq(|segments|, i requires 0 <= i < |segments| => segments[i].(startPoint := points[i], endPoint := points[i + 1]))
  }

  /** The endpoint loop of `updateTaperedSegmentLength`. */
  method RefreshEndpoints(segments: seq<TaperedSegment>, points: seq<Point>) returns (r: seq<TaperedSegment>)
    requires |segments| < |points|
    ensures r == WithEndpoints(segments, points)
  {
    r := segments;
    var i := 0;
    while i < |r|
      invariant 0 <= i <= |r| == |segments|
      invariant forall j :: 0 <= j < i ==> r[j] == segments[j].(startPoint := points[j], endPoint := points[j + 1])
      invariant forall j :: i <= j < |r| ==> r[j] == segments[j]
    {
      r := r[i := r[i].(startPoint := points[i], endPoint := points[i + 1])];
      i := i + 1;
    }
  }

  /** The segments with the tapered length at `segmentIndex` replaced.  A
      negative index names no element: the assignment then lands on a
      non-index property of the copied array and the elements stay put. */
  function EditLength(segments: seq<TaperedSegment>, segmentIndex: int, newLength: real): seq<TaperedSegment>
    requires segmentIndex < |segments|
  {
    if 0 <= segmentIndex then segments[segmentIndex := segments[segmentIndex].(taperedLength := newLength)]
    else segments
  }

  /** The diagram after `updateTaperedSegmentLength(segmentIndex, newLength)`. */
  ghost function Updated(m: MathLib, d: TaperedDiagram, segmentIndex: int, newLength: real): TaperedDiagram
    requires segmentIndex < |d.segments|
  {
    var edited := EditLength(d.segments, segmentIndex, newLength);
    var pts := Recalculated(m, edited);
    if |edited| == 0 then d.(segments := [], points := [])
    else d.(segments := WithEndpoints(edited, pts), points := pts)
  }

  /** A diagram whose points are the rebuild of its segments and whose
      segments start and end at consecutive points. */
  ghost predicate Consistent(m: MathLib, d: TaperedDiagram)
  {
    && d.points == Recalculated(m, d.segments)
    && (0 < |d.segments| ==> |d.points| == |d.segments| + 1)
    && forall i :: 0 <= i < |d.segments| ==>
         d.segments[i].startPoint == d.points[i] && d.segments[i].endPoint == d.points[i + 1]
  }

  /** An update keeps the segment count, every stored angle and original
      length, and the drawing it came from; it changes the tapered length at
      `segmentIndex` (when that is a valid index) and no other; the first
      point stays where it was; and the result is consistent. */
  lemma UpdatedLaws(m: MathLib, d: TaperedDiagram, segmentIndex: int, newLength: real)
    requires segmentIndex < |d.segments|
    ensures var r := Updated(m, d, segmentIndex, newLength);
      && |r.segments| == |d.segments|
      && r.originalDrawingId == d.originalDrawingId
      && (forall i :: 0 <= i < |d.segments| ==>
            && r.segments[i].angle == d.segments[i].angle
            && r.segments[i].originalLength == d.segments[i].originalLength
            && r.segments[i].taperedLength == (if i == segmentIndex then newLength else d.segments[i].taperedLength))
      && (0 < |d.segments| ==> r.points[0] == d.segments[0].startPoint)
      && Consistent(m, r)
  {
    var edited := EditLength(d.segments, segmentIndex, newLength);
    var r := Updated(m, d, segmentIndex, newLength);
    RecalculatedShape(m, edited);
    if 0 < |edited| {
      RecalculatedFromAnglesAndLengths(m, edited, r.segments);
    }
  }

  /** Every rebuilt segment of an updated diagram has its tapered length,
      and its running direction is unchanged by the update. */
  lemma UpdatedGeometry(m: MathLib, d: TaperedDiagram, segmentIndex: int, newLength: real, i: nat)
    requires Lawful(m) && segmentIndex < |d.segments| && i < |d.segments|
    ensures var r := Updated(m, d, segmentIndex, newLength);
      && |r.points| == |d.segments| + 1
      && GeometryUtils.GetSegmentLength(m, r.points[i], r.points[i + 1]) == GeometryUtils.Abs(r.segments[i].taperedLength)
      && Heading(r.segments, i) == Heading(d.segments, i)
  {
    var edited := EditLength(d.segments, segmentIndex, newLength);
    var r := Updated(m, d, segmentIndex, newLength);
    RecalculatedShape(m, edited);
    UpdatedLaws(m, d, segmentIndex, newLength);
    AdvanceLength(m, r.points[i], Heading(edited, i), edited[i].taperedLength);
    HeadingFromAngles(r.segments, d.segments, i);
  }

  /** A freshly created diagram is consistent. */
  lemma CreatedIsConsistent(m: MathLib, points: seq<Point>, originalDrawingId: string)
    requires Lawful(m) && 2 <= |points|
    ensures Consistent(m, TaperedDiagram(originalDrawingId, TaperedSegments(m, points), points))
  {
    CreatedReproducesPoints(m, points);
    TaperedSegmentsLaws(m, points);
  }

  // ---------------------------------------------------------------------
  // The store
  // ---------------------------------------------------------------------

  /** The tapered-diagram store: the active diagram, if any, and which
      diagram the canvas shows. */
  class TaperedDiagramStore {
    var activeTaperedDiagram: Option<TaperedDiagram>
    var canvasMode: CanvasMode

    constructor()
      ensures activeTaperedDiagram == None && canvasMode == Original
    {
      activeTaperedDiagram := None;
      canvasMode := Original;
    }

    /** Derives a diagram from the drawing's points and shows it; a line
        with fewer than two points changes nothing. */
    method CreateTaperedDiagram(m: MathLib, originalDrawing: Line, originalDrawingId: string)
      modifies this
      ensures |originalDrawing.points| < 2 ==>
        activeTaperedDiagram == old(activeTaperedDiagram) && canvasMode == old(canvasMode)
      ensures 2 <= |originalDrawing.points| ==>
        && activeTaperedDiagram == Some(TaperedDiagram(originalDrawingId,
             TaperedSegments(m, originalDrawing.points), originalDrawing.points))
        && canvasMode == Tapered
    {
      var points := originalDrawing.points;
      if |points| < 2 {
        return;
      }
      var segments := BuildTaperedSegments(m, points);
      activeTaperedDiagram := Some(TaperedDiagram(originalDrawingId, segments, points));
      canvasMode := Tapered;
    }

    /** Sets one tapered length and rebuilds the points; no diagram, or an
        index at or past the segment count, changes nothing. */
    method UpdateTaperedSegmentLength(m: MathLib, segmentIndex: int, newLength: real)
      modifies this
      ensures canvasMode == old(canvasMode)
      ensures old(activeTaperedDiagram).None? || segmentIndex >= |old(activeTaperedDiagram).value.segments| ==>
        activeTaperedDiagram == old(activeTaperedDiagram)
      ensures old(activeTaperedDiagram).Some? && segmentIndex < |old(activeTaperedDiagram).value.segments| ==>
        activeTaperedDiagram == Some(Updated(m, old(activeTaperedDiagram).value, segmentIndex, newLength))
    {
      if activeTaperedDiagram.None? || segmentIndex >= |activeTaperedDiagram.value.segments| {
        return;
      }
      var d := activeTaperedDiagram.value;
      var updatedSegments := EditLength(d.segments, segmentIndex, newLength);
      var newPoints := RecalculatePoints(m, updatedSegments);
      if |updatedSegments| == 0 {
        updatedSegments := [];
      } else {
        RecalculatedShape(m, updatedSegments);
        updatedSegments := RefreshEndpoints(updatedSegments, newPoints);
      }
      activeTaperedDiagram := Some(d.(segments := updatedSegments, points := newPoints));
    }

    method SwitchToOriginal()
      modifies this
      ensures canvasMode == Original && activeTaperedDiagram == old(activeTaperedDiagram)
    {
      canvasMode := Original;
    }

    /** Shows the tapered diagram, but only when there is one. */
    method SwitchToTapered()
      modifies this
      ensures activeTaperedDiagram == old(activeTaperedDiagram)
      ensures canvasMode == if activeTaperedDiagram.Some? then Tapered else old(canvasMode)
    {
      if activeTaperedDiagram.Some? {
        canvasMode := Tapered;
      }
    }

    method ClearTaperedDiagram()
      modifies this
      ensures activeTaperedDiagram == None && canvasMode == Original
    {
      activeTaperedDiagram := None;
      canvasMode := Original;
    }
  }
}
