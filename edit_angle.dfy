/** The vertex-angle dialog: its guards, the pivot and rotation it asks
    for, the rotation of the tail of the polyline about that pivot, the
    segment-length listing it compares before and after, and the folding of
    angle differences used in that comparison. */
module EditAngle {
  import opened HostMath
  import opened Types
  import opened GeometryUtils

  /** What `handleOk` asks of the store: nothing, or rotate every point
      after `pivot` of line `lineIdx` about that pivot by `deltaRad`. */
  datatype AngleEdit = NoChange | RotateTail(lineIdx: nat, pivot: nat, deltaRad: real)

  /** `tailCount`: the number of points after the pivot, never negative. */
  function TailCount(n: nat, pivot: nat): nat
  {
    if n < pivot + 1 then 0 else n - (pivot + 1)
  }

  /** `handleOk` up to the rotation call.  `requested` is the parsed angle,
      None when it is not a finite number. */
  function PlanAngleEdit(m: MathLib, lines: seq<Line>, lineIdx: int, segIdx: int, requested: Option<real>): AngleEdit
    requires 0.0 < m.pi
  {
    if requested.None? then NoChange
    else if !(0 <= lineIdx < |lines|) || |lines[lineIdx].points| < 3 then NoChange
    else
      var points := lines[lineIdx].points;
      if segIdx < 1 || segIdx > |points| - 2 then NoChange
      else
        var currentAngle := AngleAtVertexDegrees(m, points[segIdx - 1], points[segIdx], points[segIdx + 1]);
        var deltaRad := DegToRad(m, requested.value - currentAngle);
        if TailCount(|points|, segIdx) == 0 then NoChange
        else RotateTail(lineIdx, segIdx, deltaRad)
  }

  /** No rotation is asked for exactly when the angle is not finite, the
      line is missing or has fewer than three points, or segIdx is not an
      interior vertex. */
  lemma PlanRefused(m: MathLib, lines: seq<Line>, lineIdx: int, segIdx: int, requested: Option<real>)
    requires 0.0 < m.pi
    ensures PlanAngleEdit(m, lines, lineIdx, segIdx, requested) == NoChange <==>
      (requested.None? || !(0 <= lineIdx < |lines|) || |lines[lineIdx].points| < 3
       || segIdx < 1 || segIdx > |lines[lineIdx].points| - 2)
  {
  }

  /** An accepted edit pivots on the middle vertex B = points[segIdx], turns
      by the requested angle minus the current angle A-B-C, converted to
      radians, and always has at least one point to rotate. */
  lemma PlanRotates(m: MathLib, lines: seq<Line>, lineIdx: int, segIdx: int, requested: Option<real>)
    requires 0.0 < m.pi && PlanAngleEdit(m, lines, lineIdx, segIdx, requested).RotateTail?
    ensures var e := PlanAngleEdit(m, lines, lineIdx, segIdx, requested);
      var points := lines[lineIdx].points;
      && requested.Some?
      && e.lineIdx == lineIdx && e.pivot == segIdx
      && 1 <= segIdx && segIdx + 1 < |points|
      && 1 <= TailCount(|points|, segIdx)
      && e.deltaRad == DegToRad(m, requested.value - AngleAtVertexDegrees(m, points[segIdx - 1], points[segIdx], points[segIdx + 1]))
  {
  }

  /** Once the middle index passed the range check, the tail is never
      empty, so the "nothing to rotate" branch cannot be taken. */
  lemma TailNeverEmpty(n: nat, segIdx: int)
    requires 3 <= n && 1 <= segIdx <= n - 2
    ensures 1 <= TailCount(n, segIdx)
  {
  }

  /** The rotation the dialog asks for: the points up to the pivot stay,
      the points after it are turned about it with `rotatePointsAround`. */
  function RotatedTail(m: MathLib, points: seq<Point>, pivot: nat, deltaRad: real): seq<Point>
    requires pivot < |points|
  {
    points[..pivot + 1] + RotatePointsAround(m, points[pivot], points[pivot + 1..], deltaRad)
  }

  /** v turned by the rotation with cosine c and sine s. */
  function Turned(v: Point, c: real, s: real): Point
  {
    Point(v.x * c - v.y * s, v.x * s + v.y * c)
  }

  function CrossOf(u: Point, v: Point): real
  {
    Cross(u.x, u.y, v.x, v.y)
  }

  function DotOf(u: Point, v: Point): real
  {
    Dot(u.x, u.y, v.x, v.y)
  }

  /** A rotation keeps cross and dot products, on coordinates. */
  lemma RotationKeepsCrossDot(ux: real, uy: real, vx: real, vy: real, c: real, s: real)
    requires SumSq(c, s) == 1.0
    ensures Cross(ux * c - uy * s, ux * s + uy * c, vx * c - vy * s, vx * s + vy * c) == Cross(ux, uy, vx, vy)
    ensures Dot(ux * c - uy * s, ux * s + uy * c, vx * c - vy * s, vx * s + vy * c) == Dot(ux, uy, vx, vy)
  {
    calc {
      Cross(ux * c - uy * s, ux * s + uy * c, vx * c - vy * s, vx * s + vy * c);
      (ux * c - uy * s) * (vx * s + vy * c) - (vx * c - vy * s) * (ux * s + uy * c);
      (ux * vy - vx * uy) * (c * c + s * s);
      Cross(ux, uy, vx, vy) * SumSq(c, s);
      Cross(ux, uy, vx, vy);
    }
    calc {
      Dot(ux * c - uy * s, ux * s + uy * c, vx * c - vy * s, vx * s + vy * c);
      (ux * c - uy * s) * (vx * c - vy * s) + (ux * s + uy * c) * (vx * s + vy * c);
      (ux * vx + uy * vy) * (c * c + s * s);
      Dot(ux, uy, vx, vy) * SumSq(c, s);
      Dot(ux, uy, vx, vy);
    }
  }

  /** The same for vectors. */
  lemma TurnedKeepsCrossDot(u: Point, v: Point, c: real, s: real)
    requires SumSq(c, s) == 1.0
    ensures CrossOf(Turned(u, c, s), Turned(v, c, s)) == CrossOf(u, v)
    ensures DotOf(Turned(u, c, s), Turned(v, c, s)) == DotOf(u, v)
  {
    RotationKeepsCrossDot(u.x, u.y, v.x, v.y, c, s);
  }

  /** Rotating two points turns the displacement between them. */
  lemma TurnedDisplacement(pivot: Point, c: real, s: real, p: Point, q: Point)
    ensures Diff(RotateOne(pivot, c, s, p), RotateOne(pivot, c, s, q)) == Turned(Diff(p, q), c, s)
  {
    RotateOneDisplacement(pivot, c, s, p, q);
  }

  /** The vertex angle in terms of the two displacements from the vertex. */
  lemma VertexAtan2ByDiff(m: MathLib, a: Point, b: Point, cc: Point)
    ensures VertexAtan2(m, a, b, cc) == m.atan2(CrossOf(Diff(b, a), Diff(b, cc)), DotOf(Diff(b, a), Diff(b, cc)))
  {
  }

  /** Turning three points about the same pivot keeps the cross and dot
      products at the middle one. */
  lemma RotateOneKeepsVertexAtan2(m: MathLib, pivot: Point, c: real, s: real, a: Point, b: Point, cc: Point)
    requires SumSq(c, s) == 1.0
    ensures VertexAtan2(m, RotateOne(pivot, c, s, a), RotateOne(pivot, c, s, b), RotateOne(pivot, c, s, cc))
         == VertexAtan2(m, a, b, cc)
  {
    var a', b', c' := RotateOne(pivot, c, s, a), RotateOne(pivot, c, s, b), RotateOne(pivot, c, s, cc);
    VertexAtan2ByDiff(m, a, b, cc);
    VertexAtan2ByDiff(m, a', b', c');
    TurnedDisplacement(pivot, c, s, b, a);
    TurnedDisplacement(pivot, c, s, b, cc);
    TurnedKeepsCrossDot(Diff(b, a), Diff(b, cc), c, s);
  }

  /** Turning three points about the same pivot keeps the signed angle at
      the middle one. */
  lemma RotateOneKeepsAngle(m: MathLib, pivot: Point, c: real, s: real, a: Point, b: Point, cc: Point)
    requires 0.0 < m.pi && SumSq(c, s) == 1.0
    ensures AngleAtVertexDegrees(m, RotateOne(pivot, c, s, a), RotateOne(pivot, c, s, b), RotateOne(pivot, c, s, cc))
         == AngleAtVertexDegrees(m, a, b, cc)
  {
    RotateOneKeepsVertexAtan2(m, pivot, c, s, a, b, cc);
  }

  /** The points of the rotated polyline: as before up to the pivot, and
      from the pivot on (the pivot included, since it stays put) the
      rotated images. */
  lemma RotatedTailAt(m: MathLib, points: seq<Point>, pivot: nat, deltaRad: real, k: nat)
    requires pivot < |points| && k < |points|
    ensures |RotatedTail(m, points, pivot, deltaRad)| == |points|
    ensures k <= pivot ==> RotatedTail(m, points, pivot, deltaRad)[k] == points[k]
    ensures pivot <= k ==> RotatedTail(m, points, pivot, deltaRad)[k]
                           == RotateOne(points[pivot], m.cos(deltaRad), m.sin(deltaRad), points[k])
  {
    if k == pivot {
      RotateOneFixesPivot(points[pivot], m.cos(deltaRad), m.sin(deltaRad));
    }
  }

  /** A segment's length is the root of its squared length. */
  lemma LengthBySqDist(m: MathLib, p: Point, q: Point)
    ensures GetSegmentLength(m, p, q) == m.sqrt(SqDist(p, q))
  {
  }

  /** Every segment keeps its length under the rotation. */
  lemma RotatedTailKeepsLengths(m: MathLib, points: seq<Point>, pivot: nat, deltaRad: real)
    requires Lawful(m) && pivot < |points|
    ensures var r := RotatedTail(m, points, pivot, deltaRad);
      && |r| == |points|
      && r[..pivot + 1] == points[..pivot + 1]
      && (forall i :: 0 <= i < |points| - 1 ==> GetSegmentLength(m, r[i], r[i + 1]) == GetSegmentLength(m, points[i], points[i + 1]))
  {
    var r := RotatedTail(m, points, pivot, deltaRad);
    var c, s := m.cos(deltaRad), m.sin(deltaRad);
    CosSinUnit(m, deltaRad);
    assert r[..pivot + 1] == points[..pivot + 1];
    forall i | 0 <= i < |points| - 1
      ensures GetSegmentLength(m, r[i], r[i + 1]) == GetSegmentLength(m, points[i], points[i + 1])
    {
      RotatedTailAt(m, points, pivot, deltaRad, i);
      RotatedTailAt(m, points, pivot, deltaRad, i + 1);
      if pivot <= i {
        RotateOneKeepsDistance(points[pivot], c, s, points[i], points[i + 1]);
        LengthBySqDist(m, r[i], r[i + 1]);
        LengthBySqDist(m, points[i], points[i + 1]);
      }
    }
  }

  /** Every vertex after the pivot keeps its angle; only the angle at the
      pivot may change. */
  lemma RotatedTailKeepsAngles(m: MathLib, points: seq<Point>, pivot: nat, deltaRad: real)
    requires Lawful(m) && pivot < |points|
    ensures var r := RotatedTail(m, points, pivot, deltaRad);
      forall i :: pivot < i < |points| - 1 ==>
        AngleAtVertexDegrees(m, r[i - 1], r[i], r[i + 1]) == AngleAtVertexDegrees(m, points[i - 1], points[i], points[i + 1])
  {
    var r := RotatedTail(m, points, pivot, deltaRad);
    var c, s := m.cos(deltaRad), m.sin(deltaRad);
    CosSinUnit(m, deltaRad);
    forall i | pivot < i < |points| - 1
      ensures AngleAtVertexDegrees(m, r[i - 1], r[i], r[i + 1]) == AngleAtVertexDegrees(m, points[i - 1], points[i], points[i + 1])
    {
      RotatedTailAt(m, points, pivot, deltaRad, i - 1);
      RotatedTailAt(m, points, pivot, deltaRad, i);
      RotatedTailAt(m, points, pivot, deltaRad, i + 1);
      RotateOneKeepsAngle(m, points[pivot], c, s, points[i - 1], points[i], points[i + 1]);
    }
  }

  /** `computeSegmentLengths`: the length of every segment, in order. */
  method ComputeSegmentLengths(m: MathLib, points: seq<Point>) returns (lengths: seq<real>)
    ensures |lengths| == if |points| < 2 then 0 else |points| - 1
    ensures forall i :: 0 <= i < |lengths| ==> lengths[i] == GetSegmentLength(m, points[i], points[i + 1])
  {
    lengths := [];
    var i := 0;
    while i < |points| - 1
      invariant 0 <= i <= if |points| < 2 then 0 else |points| - 1
      invariant |lengths| == i
      invariant forall j :: 0 <= j < i ==> lengths[j] == GetSegmentLength(m, points[j], points[j + 1])
    {
      lengths := lengths + [GetSegmentLength(m, points[i], points[i + 1])];
      i := i + 1;
    }
  }

  /** The normalisation of an angle difference before the tolerance check:
      subtract a turn when above 180, then add one when at most -180. */
  function FoldAngleDelta(d: real): real
  {
    var d1 := if d > 180.0 then d - 360.0 else d;
    if d1 <= -180.0 then d1 + 360.0 else d1
  }

  /** For a difference in (-540, 540] the folded value lies in (-180, 180]
      and differs from it by a whole number of turns. */
  lemma FoldAngleDeltaRange(d: real)
    requires -540.0 < d <= 540.0
    ensures -180.0 < FoldAngleDelta(d) <= 180.0
    ensures FoldAngleDelta(d) - d in {-360.0, 0.0, 360.0}
  {
  }

  /** Comparing two vertex angles as the dialog does: the folded difference
      is in (-180, 180], and it is zero exactly when the angles are equal. */
  lemma AngleComparison(before: real, after: real)
    requires -180.0 < before <= 180.0 && -180.0 < after <= 180.0
    ensures -180.0 < FoldAngleDelta(after - before) <= 180.0
    ensures FoldAngleDelta(after - before) == 0.0 <==> after == before
  {
    FoldAngleDeltaRange(after - before);
  }
}
