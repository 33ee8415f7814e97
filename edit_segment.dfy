/** The segment-length dialog: the end point of segment `segIdx` (the
    segment from point segIdx-1 to point segIdx) is moved along the
    segment's own direction to the requested length, and every later point
    is translated by the same displacement, so the rest of the polyline
    keeps its shape. */
module EditSegment {
  import opened HostMath
  import opened Types
  import GeometryUtils

  /** The point `len` away from `a` in the direction from `a` to `b`. */
  function SegmentEnd(m: MathLib, a: Point, b: Point, len: real): Point
  {
    var angleRad := m.atan2(b.y - a.y, b.x - a.x);
    Point(a.x + len * m.cos(angleRad), a.y + len * m.sin(angleRad))
  }

  /** p translated by d. */
  function Shift(p: Point, d: Point): Point
  {
    Point(p.x + d.x, p.y + d.y)
  }

  /** The points after the edit: those before `segIdx` as they were, the
      moved end point, and every later point shifted by the displacement of
      the end point. */
  function LengthEdited(m: MathLib, points: seq<Point>, segIdx: nat, len: real): seq<Point>
    requires 1 <= segIdx < |points|
  {
    var newPt := SegmentEnd(m, points[segIdx - 1], points[segIdx], len);
    var d := Diff(points[segIdx], newPt);
    seq(|points|, i requires 0 <= i < |points| =>
      if i < segIdx then points[i] else if i == segIdx then newPt else Shift(points[i], d))
  }

  /** What `handleOk` hands to `setLines`, or None when it leaves the lines
      alone: the parsed length (None for NaN) must be positive, the line
      must exist and point segIdx-1 and segIdx must both exist. */
  function Edited(m: MathLib, lines: seq<Line>, lineIdx: int, segIdx: int, newLength: Option<real>): Option<seq<Line>>
  {
    if newLength.None? || newLength.value <= 0.0 then None
    else if !(0 <= lineIdx < |lines|) then None
    else if !(1 <= segIdx < |lines[lineIdx].points|) then None
    else
      var line := lines[lineIdx];
      Some(lines[lineIdx := line.(points := LengthEdited(m, line.points, segIdx, newLength.value))])
  }

  /** The in-place part of `handleOk`: assign the new end point, then
      rewrite every later point. */
  method MoveSegmentEnd(m: MathLib, pts: array<Point>, segIdx: nat, newLength: real)
    requires 1 <= segIdx < pts.Length
    modifies pts
    ensures pts[..] == LengthEdited(m, old(pts[..]), segIdx, newLength)
  {
    ghost var before := pts[..];
    var ptA := pts[segIdx - 1];
    var ptB := pts[segIdx];
    var newPt := SegmentEnd(m, ptA, ptB, newLength);
    var deltaX := newPt.x - ptB.x;
    var deltaY := newPt.y - ptB.y;
    assert Point(deltaX, deltaY) == Diff(before[segIdx], newPt);
    pts[segIdx] := newPt;
    var i := segIdx + 1;
    while i < pts.Length
      invariant segIdx + 1 <= i <= pts.Length
      invariant forall j :: 0 <= j < pts.Length ==>
        pts[j] == (if j < segIdx then before[j]
                   else if j == segIdx then newPt
                   else if j < i then Shift(before[j], Point(deltaX, deltaY))
                   else before[j])
    {
      pts[i] := Point(pts[i].x + deltaX, pts[i].y + deltaY);
      i := i + 1;
    }
    assert pts[..] == LengthEdited(m, before, segIdx, newLength);
  }

  /** `handleOk`; the result is what is passed to `setLines`, None when it
      is not called. */
  method HandleOk(m: MathLib, lines: seq<Line>, lineIdx: int, segIdx: int, newLength: Option<real>)
      returns (r: Option<seq<Line>>)
    ensures r == Edited(m, lines, lineIdx, segIdx, newLength)
  {
    if newLength.None? || newLength.value <= 0.0 {
      return None;
    }
    if !(0 <= lineIdx < |lines|) {
      return None;
    }
    var line := lines[lineIdx];
    if !(|line.points| > segIdx) || segIdx < 1 {
      return None;
    }
    var n := |line.points|;
    var pts := new Point[n](i => if 0 <= i < n then line.points[i] else Point(0.0, 0.0));
    assert pts[..] == line.points;
    MoveSegmentEnd(m, pts, segIdx, newLength.value);
    r := Some(lines[lineIdx := line.(points := pts[..])]);
  }

  /** The edit is refused exactly when the length is NaN or not positive,
      the line is missing, or segIdx does not name a segment end (1 to
      n-1). */
  lemma EditedRefused(m: MathLib, lines: seq<Line>, lineIdx: int, segIdx: int, newLength: Option<real>)
    ensures Edited(m, lines, lineIdx, segIdx, newLength).None? <==>
      (newLength.None? || newLength.value <= 0.0 || !(0 <= lineIdx < |lines|)
       || !(1 <= segIdx < |lines[lineIdx].points|))
  {
  }

  /** An accepted edit touches only the chosen line and only its points;
      the point count is unchanged and the points before segIdx are kept. */
  lemma EditedShape(m: MathLib, lines: seq<Line>, lineIdx: int, segIdx: int, newLength: Option<real>)
    requires Edited(m, lines, lineIdx, segIdx, newLength).Some?
    ensures var r := Edited(m, lines, lineIdx, segIdx, newLength).value;
      && 0 <= lineIdx < |lines| == |r|
      && (forall k :: 0 <= k < |lines| && k != lineIdx ==> r[k] == lines[k])
      && r[lineIdx] == lines[lineIdx].(points := r[lineIdx].points)
      && |r[lineIdx].points| == |lines[lineIdx].points|
      && r[lineIdx].points[..segIdx] == lines[lineIdx].points[..segIdx]
  {
    var r := Edited(m, lines, lineIdx, segIdx, newLength).value;
    assert r[lineIdx].points[..segIdx] == lines[lineIdx].points[..segIdx];
  }

  /** The moved end point lies on the old direction from A to B (its offset
      from A is the old segment vector scaled by len over the old length)
      and at distance `len` from A. */
  lemma SegmentEndOnRay(m: MathLib, a: Point, b: Point, len: real)
    requires Lawful(m) && 0.0 <= len
    ensures var p := SegmentEnd(m, a, b, len);
      && GeometryUtils.GetSegmentLength(m, a, b) * (p.x - a.x) == len * (b.x - a.x)
      && GeometryUtils.GetSegmentLength(m, a, b) * (p.y - a.y) == len * (b.y - a.y)
      && SqDist(a, p) == Sq(len)
      && GeometryUtils.GetSegmentLength(m, a, p) == len
  {
    var dx, dy := b.x - a.x, b.y - a.y;
    var t := m.atan2(dy, dx);
    var c, s := m.cos(t), m.sin(t);
    var nrm := Norm(m, dx, dy);
    var p := SegmentEnd(m, a, b, len);
    Polar(m, dy, dx);
    assert p.x - a.x == len * c;
    assert p.y - a.y == len * s;
    calc {
      nrm * (p.x - a.x);
      nrm * (len * c);
      len * (nrm * c);
      len * dx;
    }
    calc {
      nrm * (p.y - a.y);
      nrm * (len * s);
      len * (nrm * s);
      len * dy;
    }
    CosSinUnit(m, t);
    ScaledUnit(c, s, len);
    assert c * len == len * c && s * len == len * s;
    assert SqDist(a, p) == SumSq(c * len, s * len);
    GeometryUtils.LengthFromSquare(m, a, p, len);
  }

  /** After the edit, segment segIdx has the requested length along its
      old direction, and every later segment has exactly its old
      displacement vector, hence its old length and direction. */
  lemma LengthEditedGeometry(m: MathLib, points: seq<Point>, segIdx: nat, len: real)
    requires Lawful(m) && 1 <= segIdx < |points| && 0.0 <= len
    ensures var r := LengthEdited(m, points, segIdx, len);
      && |r| == |points|
      && r[..segIdx] == points[..segIdx]
      && r[segIdx] == SegmentEnd(m, points[segIdx - 1], points[segIdx], len)
      && GeometryUtils.GetSegmentLength(m, r[segIdx - 1], r[segIdx]) == len
      && (forall i :: segIdx < i < |points| ==> Diff(r[i - 1], r[i]) == Diff(points[i - 1], points[i]))
  {
    var r := LengthEdited(m, points, segIdx, len);
    assert r[..segIdx] == points[..segIdx];
    SegmentEndOnRay(m, points[segIdx - 1], points[segIdx], len);
    var newPt := r[segIdx];
    var d := Diff(points[segIdx], newPt);
    forall i | segIdx < i < |points|
      ensures Diff(r[i - 1], r[i]) == Diff(points[i - 1], points[i])
    {
    }
  }
}
