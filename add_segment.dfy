/** The add-segment dialog: one new point is attached before the first or
    after the last point of a polyline, `length` away from that end point,
    in the direction the fold heading rule gives for `angle`. */
module AddSegment {
  import opened HostMath
  import opened Types
  import GeometryUtils

  /** Which end of the polyline gets the new segment. */
  datatype LineEnd = Start | End

  /** The length field after an edit: the parsed input when it is positive,
      else 50 (a NaN input is None). */
  function LengthInput(num: Option<real>): (r: real)
    ensures 0.0 < r
    ensures num.Some? && 0.0 < num.value ==> r == num.value
    ensures (num.None? || num.value <= 0.0) ==> r == 50.0
  {
    if num.Some? && num.value > 0.0 then num.value else 50.0
  }

  /** The angle field after an edit: the parsed input unless it is NaN,
      else 90. */
  function AngleInput(num: Option<real>): (r: real)
    ensures num.Some? ==> r == num.value
    ensures num.None? ==> r == 90.0
  {
    if num.Some? then num.value else 90.0
  }

  /** The end point that the new segment starts from. */
  function BasePoint(points: seq<Point>, end: LineEnd): Point
    requires |points| > 0
  {
    if end == End then points[|points| - 1] else points[0]
  }

  /** The direction reference: the end point's neighbour, or the end point
      itself on a one-point line. */
  function NextPoint(points: seq<Point>, end: LineEnd): Point
    requires |points| > 0
  {
    if |points| < 2 then BasePoint(points, end)
    else if end == End then points[|points| - 2] else points[1]
  }

  /** The extended point list. */
  function Extended(m: MathLib, points: seq<Point>, end: LineEnd, length: real, angle: real): seq<Point>
    requires 0.0 < m.pi && |points| > 0
  {
    var newPt := GeometryUtils.GetNewPositionByAngleLength(m, NextPoint(points, end), BasePoint(points, end), length, angle);
    if end == End then points + [newPt] else [newPt] + points
  }

  /** `addSegmentToLine`: the lines handed to `setLines`, or None when it
      rejects the input (length NaN or not positive, angle NaN), finds no
      line at `lineIdx`, or the line has no point to extend. */
  function AddSegmentToLine(m: MathLib, lines: seq<Line>, lineIdx: int, end: LineEnd,
                            length: Option<real>, angle: Option<real>): Option<seq<Line>>
    requires 0.0 < m.pi
  {
    if length.None? || length.value <= 0.0 then None
    else if angle.None? then None
    else if !(0 <= lineIdx < |lines|) then None
    else if |lines[lineIdx].points| == 0 then None
    else
      var line := lines[lineIdx];
      Some(lines[lineIdx := line.(points := Extended(m, line.points, end, length.value, angle.value))])
  }

  /** The dialog's own inputs always pass the validation of
      `addSegmentToLine`. */
  lemma DialogInputsAccepted(m: MathLib, lines: seq<Line>, lineIdx: int, end: LineEnd,
                             lengthText: Option<real>, angleText: Option<real>)
    requires 0.0 < m.pi
    ensures AddSegmentToLine(m, lines, lineIdx, end, Some(LengthInput(lengthText)), Some(AngleInput(angleText))).None?
        <==> !(0 <= lineIdx < |lines|) || |lines[lineIdx].points| == 0
  {
  }

  /** Rejections are exactly the invalid inputs, the missing line and the
      empty line. */
  lemma AddSegmentRefused(m: MathLib, lines: seq<Line>, lineIdx: int, end: LineEnd,
                          length: Option<real>, angle: Option<real>)
    requires 0.0 < m.pi
    ensures AddSegmentToLine(m, lines, lineIdx, end, length, angle).None? <==>
      (length.None? || length.value <= 0.0 || angle.None? || !(0 <= lineIdx < |lines|)
       || |lines[lineIdx].points| == 0)
  {
  }

  /** 'end' appends and 'start' prepends exactly one point, the old points
      keep their order, the new point is `length` away from the end point
      it extends, and nothing else in the lines changes. */
  lemma AddSegmentLaws(m: MathLib, lines: seq<Line>, lineIdx: int, end: LineEnd,
                       length: Option<real>, angle: Option<real>)
    requires Lawful(m) && AddSegmentToLine(m, lines, lineIdx, end, length, angle).Some?
    ensures var r := AddSegmentToLine(m, lines, lineIdx, end, length, angle).value;
      var old_ := lines[lineIdx].points;
      var pts := r[lineIdx].points;
      && |r| == |lines|
      && (forall k :: 0 <= k < |lines| && k != lineIdx ==> r[k] == lines[k])
      && r[lineIdx] == lines[lineIdx].(points := pts)
      && |pts| == |old_| + 1
      && (end == End ==> pts[..|old_|] == old_
                         && GeometryUtils.GetSegmentLength(m, old_[|old_| - 1], pts[|old_|]) == length.value)
      && (end == Start ==> pts[1..] == old_
                           && GeometryUtils.GetSegmentLength(m, old_[0], pts[0]) == length.value)
  {
    var old_ := lines[lineIdx].points;
    var len := length.value;
    var newPt := GeometryUtils.GetNewPositionByAngleLength(m, NextPoint(old_, end), BasePoint(old_, end), len, angle.value);
    GeometryUtils.NewPositionIsAtLength(m, NextPoint(old_, end), BasePoint(old_, end), len, angle.value);
    assert (old_ + [newPt])[..|old_|] == old_;
    assert ([newPt] + old_)[1..] == old_;
  }

  /** On a one-point line the reference is the point itself, so the new
      point lies in the absolute direction 180 - angle degrees (one turn
      added when that is negative), at either end. */
  lemma SinglePointExtended(m: MathLib, p: Point, end: LineEnd, length: real, angle: real)
    requires Lawful(m)
    ensures var h := if 180.0 - angle < 0.0 then 540.0 - angle else 180.0 - angle;
      var q := GeometryUtils.GetPointFromAngleDistance(m, p.x, p.y, h, length);
      Extended(m, [p], end, length, angle) == if end == End then [p, q] else [q, p]
  {
    GeometryUtils.DegenerateFoldHeading(m, p, angle);
  }
}
