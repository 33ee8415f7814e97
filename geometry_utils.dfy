/** Angle, distance and rotation helpers used by the fold and edit dialogs.
    Angles are in degrees unless a name says radians; the screen's y axis
    points down.  Lemmas that do arithmetic take the trigonometric facts
    they need as explicit hypotheses; the `Lawful` lemmas only supply them. */
module GeometryUtils {
  import opened Types
  import opened HostMath

  /** The x coordinate of the far-right reference point that
      `GetNewPositionByAngleLength` measures the fold angle against. */
  const ReferenceX: real := 100000.0

  function DegToRad(m: MathLib, deg: real): real
  {
    deg * m.pi / 180.0
  }

  function RadToDeg(m: MathLib, rad: real): real
    requires 0.0 < m.pi
  {
    rad * 180.0 / m.pi
  }

  /** The two conversions undo each other. */
  lemma DegRadRoundTrip(m: MathLib, d: real, r: real)
    requires 0.0 < m.pi
    ensures RadToDeg(m, DegToRad(m, d)) == d
    ensures DegToRad(m, RadToDeg(m, r)) == r
  {
  }

  /** An angle in (-pi, pi] converts to degrees in (-180, 180]. */
  lemma RadToDegHalfTurn(m: MathLib, rad: real)
    requires 0.0 < m.pi && -m.pi < rad <= m.pi
    ensures -180.0 < RadToDeg(m, rad) <= 180.0
  {
  }

  /** The cross and dot products of (ax, ay) and (bx, bY). */
  function Cross(ax: real, ay: real, bx: real, bY: real): real
  {
    ax * bY - bx * ay
  }

  function Dot(ax: real, ay: real, bx: real, bY: real): real
  {
    ax * bx + ay * bY
  }

  /** The signed turn, in degrees, from the vector (x00,y00)->(x01,y01) to the
      vector (x01,y01)->(x02,y02), before `CalculateAngle` shifts it. */
  function TurnDegrees(m: MathLib, x00: real, y00: real, x01: real, y01: real, x02: real, y02: real): real
    requires 0.0 < m.pi
  {
    RadToDeg(m, m.atan2(Cross(x01 - x00, y01 - y00, x02 - x01, y02 - y01),
                        Dot(x01 - x00, y01 - y00, x02 - x01, y02 - y01)))
  }

  /** `CalculateAngle`: the source returns 180 + turn when the turn is truthy
      and 180 when it is 0; over the reals there is no NaN for its last
      branch. */
  function CalculateAngle(m: MathLib, x00: real, y00: real, x01: real, y01: real, x02: real, y02: real): real
    requires 0.0 < m.pi
  {
    var turn := TurnDegrees(m, x00, y00, x01, y01, x02, y02);
    if turn != 0.0 then 180.0 + turn else 180.0
  }

  /** `CalculateAngle` is 180 plus the turn in both of its branches, it is
      exactly 180 when the turn is zero, and it lies in (0, 360]. */
  lemma CalculateAngleIsShiftedTurn(m: MathLib, x00: real, y00: real, x01: real, y01: real, x02: real, y02: real)
    requires Lawful(m)
    ensures CalculateAngle(m, x00, y00, x01, y01, x02, y02) == 180.0 + TurnDegrees(m, x00, y00, x01, y01, x02, y02)
    ensures CalculateAngle(m, x00, y00, x01, y01, x02, y02) == 180.0
            <==> TurnDegrees(m, x00, y00, x01, y01, x02, y02) == 0.0
    ensures 0.0 < CalculateAngle(m, x00, y00, x01, y01, x02, y02) <= 360.0
  {
    var y := Cross(x01 - x00, y01 - y00, x02 - x01, y02 - y01);
    var x := Dot(x01 - x00, y01 - y00, x02 - x01, y02 - y01);
    Atan2InRange(m, y, x);
    RadToDegHalfTurn(m, m.atan2(y, x));
  }

  /** A zero-length first vector gives a zero turn, so `CalculateAngle` is 180. */
  lemma CalculateAngleDegenerate(m: MathLib, x: real, y: real, x02: real, y02: real)
    requires Lawful(m)
    ensures CalculateAngle(m, x, y, x, y, x02, y02) == 180.0
  {
    assert Cross(x - x, y - y, x02 - x, y02 - y) == 0.0;
    assert Dot(x - x, y - y, x02 - x, y02 - y) == 0.0;
    Atan2OfAxis(m, 0.0);
  }

  /** The point `distance` away from (x, y) in direction `angle` degrees. */
  function GetPointFromAngleDistance(m: MathLib, x: real, y: real, angle: real, distance: real): Point
  {
    Point(m.cos(DegToRad(m, angle)) * distance + x, m.sin(DegToRad(m, angle)) * distance + y)
  }

  /** A step of signed length d along a unit vector (c, s) has squared
      length d². */
  lemma DisplacedByUnit(x: real, y: real, c: real, s: real, d: real)
    requires SumSq(c, s) == 1.0
    ensures SqDist(Point(x, y), Point(c * d + x, s * d + y)) == Sq(d)
  {
    calc {
      SqDist(Point(x, y), Point(c * d + x, s * d + y));
      SumSq((c * d + x) - x, (s * d + y) - y);
      { assert (c * d + x) - x == c * d && (s * d + y) - y == s * d; }
      SumSq(c * d, s * d);
      (c * d) * (c * d) + (s * d) * (s * d);
      (c * c + s * s) * (d * d);
      SumSq(c, s) * Sq(d);
      Sq(d);
    }
  }

  /** The square of |a| is the square of a. */
  lemma SqAbs(a: real)
    ensures Sq(Abs(a)) == Sq(a)
  {
    if a < 0.0 {
      calc { Sq(Abs(a)); (-a) * (-a); a * a; }
    }
  }

  /** The absolute value. */
  function Abs(a: real): real
  {
    if a < 0.0 then -a else a
  }

  /** The new point lies exactly `distance` from (x, y): its squared
      distance is distance², and its distance is |distance|. */
  lemma PointFromAngleDistanceIsAtDistance(m: MathLib, x: real, y: real, angle: real, distance: real)
    requires Lawful(m)
    ensures SqDist(Point(x, y), GetPointFromAngleDistance(m, x, y, angle, distance)) == Sq(distance)
    ensures GetSegmentLength(m, Point(x, y), GetPointFromAngleDistance(m, x, y, angle, distance)) == Abs(distance)
  {
    var t := DegToRad(m, angle);
    CosSinUnit(m, t);
    DisplacedByUnit(x, y, m.cos(t), m.sin(t), distance);
    SqAbs(distance);
    LengthFromSquare(m, Point(x, y), GetPointFromAngleDistance(m, x, y, angle, distance), Abs(distance));
  }

  /** A segment whose squared length is a² for some a >= 0 has length a. */
  lemma LengthFromSquare(m: MathLib, p: Point, q: Point, a: real)
    requires Lawful(m) && 0.0 <= a && SqDist(p, q) == Sq(a)
    ensures GetSegmentLength(m, p, q) == a
  {
    SqrtOfSquare(m, a);
  }

  /** The direction, in degrees, in which `GetNewPositionByAngleLength`
      places its new point. */
  function FoldHeading(m: MathLib, first: Point, second: Point, newAngle: real): real
    requires 0.0 < m.pi
  {
    var raw := 360.0 - (CalculateAngle(m, first.x, first.y, second.x, second.y, ReferenceX, second.y) + newAngle);
    if raw < 0.0 then 360.0 + raw else raw
  }

  /** The heading is 360 - (reference angle + fold angle), shifted by one
      full turn exactly when that is negative; for a fold angle in [0, 360)
      the heading lies in [0, 360). */
  lemma FoldHeadingRange(m: MathLib, first: Point, second: Point, newAngle: real)
    requires Lawful(m)
    ensures var raw := 360.0 - (CalculateAngle(m, first.x, first.y, second.x, second.y, ReferenceX, second.y) + newAngle);
            && (raw < 0.0 ==> FoldHeading(m, first, second, newAngle) == raw + 360.0)
            && (raw >= 0.0 ==> FoldHeading(m, first, second, newAngle) == raw)
    ensures 0.0 <= newAngle < 360.0 ==> 0.0 <= FoldHeading(m, first, second, newAngle) < 360.0
  {
    CalculateAngleIsShiftedTurn(m, first.x, first.y, second.x, second.y, ReferenceX, second.y);
  }

  /** When the reference point coincides with the vertex (a one-point
      line, or the fold chain after its first step), the reference angle is
      180, so the heading is the absolute 180 - newAngle, one turn added when
      that is negative. */
  lemma DegenerateFoldHeading(m: MathLib, p: Point, newAngle: real)
    requires Lawful(m)
    ensures FoldHeading(m, p, p, newAngle) == if 180.0 - newAngle < 0.0 then 540.0 - newAngle else 180.0 - newAngle
  {
    CalculateAngleDegenerate(m, p.x, p.y, ReferenceX, p.y);
  }

  /** `GetNewPositionByAngleLength`: the point reached from `second` by
      walking `newLength` along the fold heading. */
  function GetNewPositionByAngleLength(m: MathLib, first: Point, second: Point, newLength: real, newAngle: real): Point
    requires 0.0 < m.pi
  {
    GetPointFromAngleDistance(m, second.x, second.y, FoldHeading(m, first, second, newAngle), newLength)
  }

  /** Whatever the angles, the new point is |newLength| away from `second`. */
  lemma NewPositionIsAtLength(m: MathLib, first: Point, second: Point, newLength: real, newAngle: real)
    requires Lawful(m)
    ensures GetSegmentLength(m, second, GetNewPositionByAngleLength(m, first, second, newLength, newAngle)) == Abs(newLength)
    ensures SqDist(second, GetNewPositionByAngleLength(m, first, second, newLength, newAngle)) == Sq(newLength)
  {
    PointFromAngleDistanceIsAtDistance(m, second.x, second.y, FoldHeading(m, first, second, newAngle), newLength);
  }

  /** `getSegmentLength`: the Euclidean distance between two points. */
  function GetSegmentLength(m: MathLib, p1: Point, p2: Point): real
  {
    Norm(m, p2.x - p1.x, p2.y - p1.y)
  }

  /** Reversing a displacement does not change its squared length. */
  lemma SqDistSymmetric(p: Point, q: Point)
    ensures SqDist(p, q) == SqDist(q, p)
  {
    SqNegate(q.x - p.x);
    SqNegate(q.y - p.y);
    assert p.x - q.x == -(q.x - p.x) && p.y - q.y == -(q.y - p.y);
  }

  lemma SqNegate(a: real)
    ensures Sq(-a) == Sq(a)
  {
    calc { Sq(-a); (-a) * (-a); a * a; }
  }

  /** The segment length is symmetric, never negative, and zero exactly when
      the two points coincide; its square is the squared distance. */
  lemma SegmentLengthLaws(m: MathLib, p1: Point, p2: Point)
    requires Lawful(m)
    ensures GetSegmentLength(m, p1, p2) == GetSegmentLength(m, p2, p1)
    ensures 0.0 <= GetSegmentLength(m, p1, p2)
    ensures Sq(GetSegmentLength(m, p1, p2)) == SqDist(p1, p2)
    ensures GetSegmentLength(m, p1, p2) == 0.0 <==> p1 == p2
  {
    var a, b := p2.x - p1.x, p2.y - p1.y;
    NormLaws(m, a, b);
    SqDistSymmetric(p1, p2);
    PointsEqualIff(p1, p2);
  }

  /** Two points coincide exactly when the displacement between them is zero. */
  lemma PointsEqualIff(p: Point, q: Point)
    ensures (q.x - p.x == 0.0 && q.y - p.y == 0.0) <==> p == q
  {
  }

  /** The atan2 of the cross and dot products of b->a and b->c. */
  function VertexAtan2(m: MathLib, a: Point, b: Point, c: Point): real
  {
    m.atan2(Cross(a.x - b.x, a.y - b.y, c.x - b.x, c.y - b.y),
            Dot(a.x - b.x, a.y - b.y, c.x - b.x, c.y - b.y))
  }

  /** The signed angle at `b` from `a` to `c`, in degrees, normalised to
      (-180, 180]. */
  function AngleAtVertexDegrees(m: MathLib, a: Point, b: Point, c: Point): real
    requires 0.0 < m.pi
  {
    var deg := RadToDeg(m, VertexAtan2(m, a, b, c));
    var deg1 := if deg <= -180.0 then deg + 360.0 else deg;
    if deg1 > 180.0 then deg1 - 360.0 else deg1
  }

  /** The result always lies in (-180, 180]; because atan2 already lies in
      (-pi, pi], the two normalisation steps never fire and the result is the
      plain atan2 angle in degrees. */
  lemma AngleAtVertexRange(m: MathLib, a: Point, b: Point, c: Point)
    requires Lawful(m)
    ensures -180.0 < AngleAtVertexDegrees(m, a, b, c) <= 180.0
    ensures AngleAtVertexDegrees(m, a, b, c) == RadToDeg(m, VertexAtan2(m, a, b, c))
  {
    Atan2InRange(m, Cross(a.x - b.x, a.y - b.y, c.x - b.x, c.y - b.y),
                 Dot(a.x - b.x, a.y - b.y, c.x - b.x, c.y - b.y));
    RadToDegHalfTurn(m, VertexAtan2(m, a, b, c));
  }

  /** One point turned about `pivot` by the rotation with cosine `c` and
      sine `s`. */
  function RotateOne(pivot: Point, c: real, s: real, p: Point): Point
  {
    var dx := p.x - pivot.x;
    var dy := p.y - pivot.y;
    Point(pivot.x + dx * c - dy * s, pivot.y + dx * s + dy * c)
  }

  /** `rotatePointsAround`: every point turned about `pivot` by `deltaRad`. */
  function RotatePointsAround(m: MathLib, pivot: Point, points: seq<Point>, deltaRad: real): (r: seq<Point>)
    ensures |r| == |points|
    ensures forall i :: 0 <= i < |points| ==> r[i] == RotateOne(pivot, m.cos(deltaRad), m.sin(deltaRad), points[i])
  {
    seq(|points|, i requires 0 <= i < |points| => RotateOne(pivot, m.cos(deltaRad), m.sin(deltaRad), points[i]))
  }

  /** The rotation identity behind every rigidity fact below. */
  lemma RotationKeepsNorm(x: real, y: real, c: real, s: real)
    requires SumSq(c, s) == 1.0
    ensures SumSq(x * c - y * s, x * s + y * c) == SumSq(x, y)
  {
    calc {
      SumSq(x * c - y * s, x * s + y * c);
      (x * c - y * s) * (x * c - y * s) + (x * s + y * c) * (x * s + y * c);
      (x * x + y * y) * (c * c + s * s);
      SumSq(x, y) * SumSq(c, s);
      SumSq(x, y);
    }
  }

  /** Rotating two points turns the displacement between them by the same
      rotation. */
  lemma RotateOneDisplacement(pivot: Point, c: real, s: real, p: Point, q: Point)
    ensures RotateOne(pivot, c, s, q).x - RotateOne(pivot, c, s, p).x == (q.x - p.x) * c - (q.y - p.y) * s
    ensures RotateOne(pivot, c, s, q).y - RotateOne(pivot, c, s, p).y == (q.x - p.x) * s + (q.y - p.y) * c
  {
  }

  /** Two rotated points keep their distance to each other. */
  lemma RotateOneKeepsDistance(pivot: Point, c: real, s: real, p: Point, q: Point)
    requires SumSq(c, s) == 1.0
    ensures SqDist(RotateOne(pivot, c, s, p), RotateOne(pivot, c, s, q)) == SqDist(p, q)
  {
    RotateOneDisplacement(pivot, c, s, p, q);
    RotationKeepsNorm(q.x - p.x, q.y - p.y, c, s);
  }

  /** The pivot itself does not move. */
  lemma RotateOneFixesPivot(pivot: Point, c: real, s: real)
    ensures RotateOne(pivot, c, s, pivot) == pivot
  {
    assert (pivot.x - pivot.x) * c == 0.0 && (pivot.y - pivot.y) * s == 0.0;
    assert (pivot.x - pivot.x) * s == 0.0 && (pivot.y - pivot.y) * c == 0.0;
  }

  /** `rotatePointsAround` is rigid: same length, each point keeps its
      distance to the pivot, every pair keeps its distance, and a point at the
      pivot stays there. */
  lemma RotationIsRigid(m: MathLib, pivot: Point, points: seq<Point>, deltaRad: real, i: nat, j: nat)
    requires Lawful(m) && i < |points| && j < |points|
    ensures |RotatePointsAround(m, pivot, points, deltaRad)| == |points|
    ensures SqDist(pivot, RotatePointsAround(m, pivot, points, deltaRad)[i]) == SqDist(pivot, points[i])
    ensures SqDist(RotatePointsAround(m, pivot, points, deltaRad)[i], RotatePointsAround(m, pivot, points, deltaRad)[j])
            == SqDist(points[i], points[j])
    ensures points[i] == pivot ==> RotatePointsAround(m, pivot, points, deltaRad)[i] == pivot
  {
    var c := m.cos(deltaRad);
    var s := m.sin(deltaRad);
    CosSinUnit(m, deltaRad);
    RotateOneFixesPivot(pivot, c, s);
    RotateOneKeepsDistance(pivot, c, s, pivot, points[i]);
    RotateOneKeepsDistance(pivot, c, s, points[i], points[j]);
  }
}
