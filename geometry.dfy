/** The label-placement geometry: distances, midpoints, segment directions,
    perpendicular offsets and the angle shown at a polyline vertex. */
module Geometry {
  import opened Types
  import opened HostMath
  import GeometryUtils

  /** `calculateDistance`: the Euclidean distance between two points. */
  function CalculateDistance(m: MathLib, p1: Point, p2: Point): real
  {
    Norm(m, p2.x - p1.x, p2.y - p1.y)
  }

  /** The distance is symmetric, never negative, its square is the squared
      distance, it is zero exactly for equal points, and it agrees with the
      segment length of the fold dialogs. */
  lemma DistanceLaws(m: MathLib, p1: Point, p2: Point)
    requires Lawful(m)
    ensures CalculateDistance(m, p1, p2) == CalculateDistance(m, p2, p1)
    ensures 0.0 <= CalculateDistance(m, p1, p2)
    ensures Sq(CalculateDistance(m, p1, p2)) == SqDist(p1, p2)
    ensures CalculateDistance(m, p1, p2) == 0.0 <==> p1 == p2
    ensures CalculateDistance(m, p1, p2) == GeometryUtils.GetSegmentLength(m, p1, p2)
  {
    GeometryUtils.SegmentLengthLaws(m, p1, p2);
  }

  /** `calculateMidpoint`: the coordinate average. */
  function CalculateMidpoint(p1: Point, p2: Point): Point
  {
    Point((p1.x + p2.x) / 2.0, (p1.y + p2.y) / 2.0)
  }

  /** Halving both coordinates quarters the sum of squares. */
  lemma HalfSquares(a: real, b: real)
    ensures SumSq(a / 2.0, b / 2.0) == SumSq(a, b) / 4.0
  {
    calc {
      SumSq(a / 2.0, b / 2.0);
      (a / 2.0) * (a / 2.0) + (b / 2.0) * (b / 2.0);
      (a * a + b * b) / 4.0;
    }
  }

  /** The midpoint is equally far from both ends, each half being a quarter
      of the whole in squared length, and it lies between them: reflecting
      either end through it gives the other. */
  lemma MidpointIsCentre(m: MathLib, p1: Point, p2: Point)
    requires Lawful(m)
    ensures SqDist(p1, CalculateMidpoint(p1, p2)) == SqDist(CalculateMidpoint(p1, p2), p2)
    ensures SqDist(p1, CalculateMidpoint(p1, p2)) == SqDist(p1, p2) / 4.0
    ensures CalculateDistance(m, p1, CalculateMidpoint(p1, p2)) == CalculateDistance(m, CalculateMidpoint(p1, p2), p2)
    ensures 2.0 * CalculateMidpoint(p1, p2).x - p1.x == p2.x && 2.0 * CalculateMidpoint(p1, p2).y - p1.y == p2.y
  {
    var mid := CalculateMidpoint(p1, p2);
    assert mid.x - p1.x == (p2.x - p1.x) / 2.0 && p2.x - mid.x == (p2.x - p1.x) / 2.0;
    assert mid.y - p1.y == (p2.y - p1.y) / 2.0 && p2.y - mid.y == (p2.y - p1.y) / 2.0;
    HalfSquares(p2.x - p1.x, p2.y - p1.y);
  }

  /** `calculateAngle`: the direction of p1 -> p2 in degrees, counted
      counter-clockwise on screen (hence the negated y difference). */
  function CalculateAngle(m: MathLib, p1: Point, p2: Point): real
    requires 0.0 < m.pi
  {
    m.atan2(-(p2.y - p1.y), p2.x - p1.x) * (180.0 / m.pi)
  }

  /** The direction lies in (-180, 180], it is the atan2 angle converted to
      degrees, and a segment pointing right along the screen (or of zero
      length) has direction 0. */
  lemma SegmentAngleRange(m: MathLib, p1: Point, p2: Point)
    requires Lawful(m)
    ensures -180.0 < CalculateAngle(m, p1, p2) <= 180.0
    ensures CalculateAngle(m, p1, p2) == GeometryUtils.RadToDeg(m, m.atan2(-(p2.y - p1.y), p2.x - p1.x))
    ensures p1.y == p2.y && p1.x <= p2.x ==> CalculateAngle(m, p1, p2) == 0.0
  {
    var t := m.atan2(-(p2.y - p1.y), p2.x - p1.x);
    Atan2InRange(m, -(p2.y - p1.y), p2.x - p1.x);
    GeometryUtils.RadToDegHalfTurn(m, t);
    assert t * (180.0 / m.pi) == t * 180.0 / m.pi;
    if p1.y == p2.y && p1.x <= p2.x {
      assert -(p2.y - p1.y) == 0.0;
      Atan2OfAxis(m, p2.x - p1.x);
    }
  }

  /** The vector (x, y) divided by its norm, and (0, 0) for the zero
      vector: the `dx / length`, `dy / length` normalisation of the source,
      taken after its `length === 0` guard. */
  function Unit(m: MathLib, x: real, y: real): Point
  {
    var len := Norm(m, x, y);
    if len == 0.0 then Point(0.0, 0.0) else Point(x / len, y / len)
  }

  /** The unit direction from `from` towards `to`. */
  function Direction(m: MathLib, from: Point, to: Point): Point
  {
    Unit(m, to.x - from.x, to.y - from.y)
  }

  lemma UnitLeaf(x: real, y: real, len: real, u: Point)
    requires 0.0 < len && Sq(len) == SumSq(x, y) && u == Point(x / len, y / len)
    ensures SumSq(u.x, u.y) == 1.0 && u.x * len == x && u.y * len == y
  {
    UnitAfterDivision(x, y, len);
  }

  /** A non-zero vector normalises to a unit vector that, scaled back by
      its positive norm, is the vector again. */
  lemma UnitLaws(m: MathLib, x: real, y: real)
    requires Lawful(m) && (x != 0.0 || y != 0.0)
    ensures 0.0 < Norm(m, x, y)
    ensures SumSq(Unit(m, x, y).x, Unit(m, x, y).y) == 1.0
    ensures Unit(m, x, y).x * Norm(m, x, y) == x && Unit(m, x, y).y * Norm(m, x, y) == y
  {
    NormPositive(m, x, y);
    NormLaws(m, x, y);
    UnitLeaf(x, y, Norm(m, x, y), Unit(m, x, y));
  }

  /** The direction between two distinct points is a unit vector that,
      scaled by their distance, is the displacement between them. */
  lemma DirectionLaws(m: MathLib, from: Point, to: Point)
    requires Lawful(m) && from != to
    ensures 0.0 < Norm(m, to.x - from.x, to.y - from.y)
    ensures SumSq(Direction(m, from, to).x, Direction(m, from, to).y) == 1.0
    ensures Direction(m, from, to).x * Norm(m, to.x - from.x, to.y - from.y) == to.x - from.x
    ensures Direction(m, from, to).y * Norm(m, to.x - from.x, to.y - from.y) == to.y - from.y
  {
    assert to.x - from.x != 0.0 || to.y - from.y != 0.0;
    UnitLaws(m, to.x - from.x, to.y - from.y);
  }

  /** `calculatePerpendicularOffset`: the unit direction of p1 -> p2 turned by
      +90 degrees and scaled by `distance`, and (0, 0) for a segment of zero
      length. */
  function CalculatePerpendicularOffset(m: MathLib, p1: Point, p2: Point, distance: real): Point
  {
    var length := Norm(m, p2.x - p1.x, p2.y - p1.y);
    if length == 0.0 then Point(0.0, 0.0)
    else
      var unit := Direction(m, p1, p2);
      Point(-unit.y * distance, unit.x * distance)
  }

  /** The arithmetic core of the perpendicular offset: the unit vector u of
      (dx, dy), turned and scaled by d, is orthogonal to (dx, dy) and has
      squared length d². */
  lemma TurnedUnit(dx: real, dy: real, len: real, u: Point, d: real, r: Point)
    requires SumSq(u.x, u.y) == 1.0 && u.x * len == dx && u.y * len == dy
    requires r == Point(-u.y * d, u.x * d)
    ensures GeometryUtils.Dot(r.x, r.y, dx, dy) == 0.0
    ensures SumSq(r.x, r.y) == Sq(d)
  {
    calc {
      GeometryUtils.Dot(r.x, r.y, dx, dy);
      (-u.y * d) * (u.x * len) + (u.x * d) * (u.y * len);
      0.0;
    }
    assert SumSq(u.y, u.x) == 1.0;
    ScaledUnit(u.y, u.x, d);
    calc {
      SumSq(r.x, r.y);
      (-u.y * d) * (-u.y * d) + (u.x * d) * (u.x * d);
      (u.y * d) * (u.y * d) + (u.x * d) * (u.x * d);
      SumSq(u.y * d, u.x * d);
    }
  }

  /** A zero-length segment has offset (0, 0). */
  lemma PerpendicularOffsetOfPoint(m: MathLib, p: Point, distance: real)
    requires Lawful(m)
    ensures CalculatePerpendicularOffset(m, p, p, distance) == Point(0.0, 0.0)
  {
    NormLaws(m, p.x - p.x, p.y - p.y);
  }

  /** For a segment of non-zero length the offset is orthogonal to it and
      has squared length distance². */
  lemma PerpendicularOffsetIsNormal(m: MathLib, p1: Point, p2: Point, distance: real)
    requires Lawful(m) && p1 != p2
    ensures GeometryUtils.Dot(CalculatePerpendicularOffset(m, p1, p2, distance).x,
                              CalculatePerpendicularOffset(m, p1, p2, distance).y,
                              p2.x - p1.x, p2.y - p1.y) == 0.0
    ensures SumSq(CalculatePerpendicularOffset(m, p1, p2, distance).x,
                  CalculatePerpendicularOffset(m, p1, p2, distance).y) == Sq(distance)
  {
    DirectionLaws(m, p1, p2);
    TurnedUnit(p2.x - p1.x, p2.y - p1.y, Norm(m, p2.x - p1.x, p2.y - p1.y), Direction(m, p1, p2),
               distance, CalculatePerpendicularOffset(m, p1, p2, distance));
  }

  /** So for a non-zero distance the offset is (0, 0) exactly when the
      segment has zero length. */
  lemma PerpendicularOffsetZeroIff(m: MathLib, p1: Point, p2: Point, distance: real)
    requires Lawful(m) && distance != 0.0
    ensures CalculatePerpendicularOffset(m, p1, p2, distance) == Point(0.0, 0.0) <==> p1 == p2
  {
    if p1 == p2 {
      PerpendicularOffsetOfPoint(m, p1, distance);
    } else {
      PerpendicularOffsetIsNormal(m, p1, p2, distance);
      NonZeroBySquare(CalculatePerpendicularOffset(m, p1, p2, distance), distance);
    }
  }

  /** A vector whose squared length is d², for d non-zero, is not zero. */
  lemma NonZeroBySquare(r: Point, d: real)
    requires d != 0.0 && SumSq(r.x, r.y) == Sq(d)
    ensures r != Point(0.0, 0.0)
  {
    SquarePositive(d);
    assert SumSq(0.0, 0.0) == 0.0;
  }

  /** The non-negative remainder of a non-negative `a` by a positive `n`:
      JavaScript's `%`, which truncates, coincides with the floored
      remainder here. */
  function Mod(a: real, n: real): real
    requires 0.0 <= a && 0.0 < n
  {
    a - n * ((a / n).Floor as real)
  }

  /** `shouldRotateText`: whether a segment at `angle` degrees is closer to
      vertical than horizontal. */
  predicate ShouldRotateText(angle: real)
  {
    var normalizedAngle := Mod(GeometryUtils.Abs(angle), 180.0);
    45.0 < normalizedAngle < 135.0
  }

  /** Whether |angle| lies strictly inside the vertical sector
      (45 + 180k, 135 + 180k). */
  ghost predicate InVerticalSector(angle: real, k: int)
  {
    45.0 + 180.0 * (k as real) < GeometryUtils.Abs(angle) < 135.0 + 180.0 * (k as real)
  }

  /** If a lies in [180k, 180k + 180) then the floor of a/180 is k. */
  lemma FloorOfSector(a: real, k: int)
    requires 180.0 * (k as real) <= a < 180.0 * (k as real) + 180.0
    ensures (a / 180.0).Floor == k
  {
    assert (k as real) <= a / 180.0 < (k as real) + 1.0;
  }

  /** a lies in [180f, 180f + 180) for f the floor of a/180. */
  lemma SectorOfFloor(a: real)
    ensures 180.0 * ((a / 180.0).Floor as real) <= a < 180.0 * ((a / 180.0).Floor as real) + 180.0
  {
    var f := (a / 180.0).Floor;
    assert (f as real) <= a / 180.0 < (f as real) + 1.0;
  }

  /** The text is rotated exactly when |angle| lies in some vertical sector,
      and that sector is the one indexed by floor(|angle| / 180). */
  lemma ShouldRotateTextSectors(angle: real)
    ensures ShouldRotateText(angle) <==> exists k: int :: InVerticalSector(angle, k)
    ensures ShouldRotateText(angle) <==> InVerticalSector(angle, (GeometryUtils.Abs(angle) / 180.0).Floor)
  {
    var a := GeometryUtils.Abs(angle);
    var f := (a / 180.0).Floor;
    SectorOfFloor(a);
    assert Mod(a, 180.0) == a - 180.0 * (f as real);
    assert ShouldRotateText(angle) <==> InVerticalSector(angle, f);
    if exists k: int :: InVerticalSector(angle, k) {
      var k: int :| InVerticalSector(angle, k);
      FloorOfSector(a, k);
    }
  }

  /** The rotation choice ignores the sign of the angle and repeats every
      half turn. */
  lemma ShouldRotateTextSymmetry(angle: real)
    ensures ShouldRotateText(-angle) == ShouldRotateText(angle)
    ensures ShouldRotateText(angle + 180.0) == ShouldRotateText(angle)
  {
    assert GeometryUtils.Abs(-angle) == GeometryUtils.Abs(angle);
    if 0.0 <= angle {
      HalfTurnRemainder(angle);
    } else if angle <= -180.0 {
      // |angle| = |angle + 180| + 180
      HalfTurnRemainder(-angle - 180.0);
    } else {
      // both absolute values lie in (0, 180) and add up to 180
      FloorOfSector(angle + 180.0, 0);
      FloorOfSector(-angle, 0);
    }
  }

  /** Adding a half turn to a non-negative angle keeps its remainder. */
  lemma HalfTurnRemainder(a: real)
    requires 0.0 <= a
    ensures Mod(a + 180.0, 180.0) == Mod(a, 180.0)
  {
    var f := (a / 180.0).Floor;
    SectorOfFloor(a);
    FloorOfSector(a + 180.0, f + 1);
  }

  /** `Math.max(-1, Math.min(1, c))`. */
  function Clamp(c: real): (r: real)
    ensures -1.0 <= r <= 1.0
    ensures -1.0 <= c <= 1.0 ==> r == c
  {
    if c > 1.0 then 1.0 else if c < -1.0 then -1.0 else c
  }

  /** `Math.acos(c) * (180 / Math.PI)`: an arc cosine in degrees. */
  function AcosDegrees(m: MathLib, c: real): real
    requires 0.0 < m.pi
  {
    m.acos(c) * (180.0 / m.pi)
  }

  /** `calculateInteriorAngle`: the unsigned angle at `vertex` between the
      arms to p1 and p3, in degrees; 0 when either arm has zero length. */
  function CalculateInteriorAngle(m: MathLib, p1: Point, vertex: Point, p3: Point): real
    requires 0.0 < m.pi
  {
    var v1x := p1.x - vertex.x;
    var v1y := p1.y - vertex.y;
    var v2x := p3.x - vertex.x;
    var v2y := p3.y - vertex.y;
    var dot := v1x * v2x + v1y * v2y;
    var mag1 := Norm(m, v1x, v1y);
    var mag2 := Norm(m, v2x, v2y);
    if mag1 == 0.0 || mag2 == 0.0 then 0.0
    else
      var cosAngle := dot / (mag1 * mag2);
      AcosDegrees(m, Clamp(cosAngle))
  }

  /** A zero-length arm gives 0. */
  lemma InteriorAngleDegenerate(m: MathLib, p1: Point, vertex: Point, p3: Point)
    requires Lawful(m) && (p1 == vertex || p3 == vertex)
    ensures CalculateInteriorAngle(m, p1, vertex, p3) == 0.0
  {
    if p1 == vertex {
      NormOfZero(m, p1.x - vertex.x, p1.y - vertex.y);
    } else {
      NormOfZero(m, p3.x - vertex.x, p3.y - vertex.y);
    }
  }

  /** An angle in [0, p] radians, for p standing for pi, is in [0, 180] degrees. */
  lemma ToDegreesRange(t: real, p: real, r: real)
    requires 0.0 < p && 0.0 <= t <= p && r == t * (180.0 / p)
    ensures 0.0 <= r <= 180.0
  {
    var q := t / p;
    assert q * p == t;
    assert q <= 1.0 by {
      if q > 1.0 {
        calc { t; == q * p; > 1.0 * p; }
      }
    }
    assert 0.0 <= q by {
      if q < 0.0 {
        calc { t; == q * p; < 0.0 * p; }
      }
    }
    calc { r; == t * (180.0 / p); == 180.0 * q; }
  }

  /** The arc cosine of a clamped cosine lies in [0, 180] degrees. */
  lemma AcosDegreesRange(m: MathLib, c: real)
    requires Lawful(m) && -1.0 <= c <= 1.0
    ensures 0.0 <= AcosDegrees(m, c) <= 180.0
  {
    AcosInRange(m, c);
    ToDegreesRange(m.acos(c), m.pi, AcosDegrees(m, c));
  }

  /** Every interior angle lies in [0, 180]. */
  lemma InteriorAngleRange(m: MathLib, p1: Point, vertex: Point, p3: Point)
    requires Lawful(m)
    ensures 0.0 <= CalculateInteriorAngle(m, p1, vertex, p3) <= 180.0
  {
    forall c | -1.0 <= c <= 1.0
      ensures 0.0 <= AcosDegrees(m, c) <= 180.0
    {
      AcosDegreesRange(m, c);
    }
  }

  /** The angle does not depend on which arm is named first. */
  lemma InteriorAngleSymmetric(m: MathLib, p1: Point, vertex: Point, p3: Point)
    requires 0.0 < m.pi
    ensures CalculateInteriorAngle(m, p1, vertex, p3) == CalculateInteriorAngle(m, p3, vertex, p1)
  {
    var v1x := p1.x - vertex.x;
    var v1y := p1.y - vertex.y;
    var v2x := p3.x - vertex.x;
    var v2y := p3.y - vertex.y;
    assert v1x * v2x + v1y * v2y == v2x * v1x + v2y * v1y;
    assert Norm(m, v1x, v1y) * Norm(m, v2x, v2y) == Norm(m, v2x, v2y) * Norm(m, v1x, v1y);
  }

  /** `Math.round`: the nearest integer, halves rounded up. */
  function Round(x: real): int
  {
    (x + 0.5).Floor
  }

  /** The rounded value differs from x by at most one half. */
  lemma RoundIsNearest(x: real)
    ensures x - 0.5 < Round(x) as real <= x + 0.5
  {
  }

  function RoundPoint(p: Point): Point
  {
    Point(Round(p.x) as real, Round(p.y) as real)
  }

  /** The default distance of an angle label from its vertex. */
  const DefaultAngleLabelOffset: real := 30.0

  /** The sum of the unit directions from `vertex` to p1 and to p3. */
  function Bisector(m: MathLib, p1: Point, vertex: Point, p3: Point): Point
  {
    var n1 := Direction(m, vertex, p1);
    var n2 := Direction(m, vertex, p3);
    Point(n1.x + n2.x, n1.y + n2.y)
  }

  /** The point `offset` from `vertex` along the unit vector n turned by
      -90 degrees. */
  function Turned(vertex: Point, n: Point, offset: real): Point
  {
    Point(vertex.x + n.y * offset, vertex.y - n.x * offset)
  }

  /** The point `offset` from `vertex` along the unit vector u. */
  function Along(vertex: Point, u: Point, offset: real): Point
  {
    Point(vertex.x + u.x * offset, vertex.y + u.y * offset)
  }

  /** Where `calculateAngleLabelPosition` puts the label before rounding:
      `offset` along the normalised bisector of the two unit arm directions,
      or, when those are exactly opposite, along the first one turned by -90
      degrees; the vertex itself when an arm has zero length. */
  function AngleLabelTarget(m: MathLib, p1: Point, vertex: Point, p3: Point, offset: real): Point
  {
    var mag1 := Norm(m, p1.x - vertex.x, p1.y - vertex.y);
    var mag2 := Norm(m, p3.x - vertex.x, p3.y - vertex.y);
    if mag1 == 0.0 || mag2 == 0.0 then vertex
    else
      var b := Bisector(m, p1, vertex, p3);
      if Norm(m, b.x, b.y) == 0.0 then Turned(vertex, Direction(m, vertex, p1), offset)
      else Along(vertex, Unit(m, b.x, b.y), offset)
  }

  /** `calculateAngleLabelPosition`: the target rounded to whole pixels. */
  function CalculateAngleLabelPosition(m: MathLib, p1: Point, vertex: Point, p3: Point, offset: real): Point
  {
    RoundPoint(AngleLabelTarget(m, p1, vertex, p3, offset))
  }

  /** The label position is within half a pixel of the target in each
      coordinate. */
  lemma AngleLabelRounding(m: MathLib, p1: Point, vertex: Point, p3: Point, offset: real)
    ensures var r := CalculateAngleLabelPosition(m, p1, vertex, p3, offset);
            var t := AngleLabelTarget(m, p1, vertex, p3, offset);
            t.x - 0.5 < r.x <= t.x + 0.5 && t.y - 0.5 < r.y <= t.y + 0.5
  {
    RoundIsNearest(AngleLabelTarget(m, p1, vertex, p3, offset).x);
    RoundIsNearest(AngleLabelTarget(m, p1, vertex, p3, offset).y);
  }

  /** With a zero-length arm the label goes to the rounded vertex. */
  lemma AngleLabelDegenerate(m: MathLib, p1: Point, vertex: Point, p3: Point, offset: real)
    requires Lawful(m) && (p1 == vertex || p3 == vertex)
    ensures CalculateAngleLabelPosition(m, p1, vertex, p3, offset) == RoundPoint(vertex)
  {
    if p1 == vertex {
      NormOfZero(m, p1.x - vertex.x, p1.y - vertex.y);
    } else {
      NormOfZero(m, p3.x - vertex.x, p3.y - vertex.y);
    }
  }

  /** The arithmetic of the opposite-arms case: the unit arm n1 turned by
      -90 degrees and scaled by `offset` is orthogonal to the arm and has
      squared length offset². */
  lemma OppositeLeaf(vertex: Point, v1x: real, v1y: real, mag1: real, n1: Point, offset: real)
    requires SumSq(n1.x, n1.y) == 1.0 && n1.x * mag1 == v1x && n1.y * mag1 == v1y
    ensures SqDist(vertex, Turned(vertex, n1, offset)) == Sq(offset)
    ensures GeometryUtils.Dot(Turned(vertex, n1, offset).x - vertex.x, Turned(vertex, n1, offset).y - vertex.y,
                              v1x, v1y) == 0.0
  {
    var t := Turned(vertex, n1, offset);
    assert SumSq(n1.y, n1.x) == 1.0;
    ScaledUnit(n1.y, n1.x, offset);
    assert t.x - vertex.x == n1.y * offset && t.y - vertex.y == -(n1.x * offset);
    calc {
      SqDist(vertex, t);
      SumSq(n1.y * offset, -(n1.x * offset));
      (n1.y * offset) * (n1.y * offset) + (n1.x * offset) * (n1.x * offset);
      SumSq(n1.y * offset, n1.x * offset);
    }
    calc {
      GeometryUtils.Dot(t.x - vertex.x, t.y - vertex.y, v1x, v1y);
      (n1.y * offset) * (n1.x * mag1) - (n1.x * offset) * (n1.y * mag1);
      0.0;
    }
  }

  /** When the unit arms are exactly opposite, the label sits |offset| from
      the vertex, perpendicular to the first arm. */
  lemma AngleLabelOpposite(m: MathLib, p1: Point, vertex: Point, p3: Point, offset: real)
    requires Lawful(m) && p1 != vertex && p3 != vertex
    requires Norm(m, Bisector(m, p1, vertex, p3).x, Bisector(m, p1, vertex, p3).y) == 0.0
    ensures SqDist(vertex, AngleLabelTarget(m, p1, vertex, p3, offset)) == Sq(offset)
    ensures GeometryUtils.Dot(AngleLabelTarget(m, p1, vertex, p3, offset).x - vertex.x,
                              AngleLabelTarget(m, p1, vertex, p3, offset).y - vertex.y,
                              p1.x - vertex.x, p1.y - vertex.y) == 0.0
  {
    DirectionLaws(m, vertex, p1);
    DirectionLaws(m, vertex, p3);
    OppositeLeaf(vertex, p1.x - vertex.x, p1.y - vertex.y, Norm(m, p1.x - vertex.x, p1.y - vertex.y),
                 Direction(m, vertex, p1), offset);
  }

  /** k · x = k · y with k non-zero forces x = y. */
  lemma CancelNonZero(k: real, x: real, y: real)
    requires k != 0.0 && k * x == k * y
    ensures x == y
  {
    calc {
      k * (x - y);
      k * x - k * y;
      0.0;
    }
  }

  /** `offset` along a unit vector is offset² away in squared length. */
  lemma AlongLeaf(vertex: Point, u: Point, offset: real)
    requires SumSq(u.x, u.y) == 1.0
    ensures SqDist(vertex, Along(vertex, u, offset)) == Sq(offset)
  {
    var t := Along(vertex, u, offset);
    assert t.x - vertex.x == u.x * offset && t.y - vertex.y == u.y * offset;
    ScaledUnit(u.x, u.y, offset);
  }

  /** The displacement `offset` along u makes offset times u's dot product
      with any n. */
  lemma AlongDot(vertex: Point, u: Point, offset: real, n: Point)
    ensures GeometryUtils.Dot(Along(vertex, u, offset).x - vertex.x, Along(vertex, u, offset).y - vertex.y, n.x, n.y)
         == offset * GeometryUtils.Dot(u.x, u.y, n.x, n.y)
  {
    var t := Along(vertex, u, offset);
    assert t.x - vertex.x == u.x * offset && t.y - vertex.y == u.y * offset;
    calc {
      GeometryUtils.Dot(u.x * offset, u.y * offset, n.x, n.y);
      (u.x * offset) * n.x + (u.y * offset) * n.y;
      offset * (u.x * n.x + u.y * n.y);
    }
  }

  /** For unit n1 and n2, a vector nb with nb · len = n1 + n2 (len non-zero)
      makes the same dot product with n1 and with n2. */
  lemma EvenDots(n1: Point, n2: Point, len: real, nb: Point)
    requires SumSq(n1.x, n1.y) == 1.0 && SumSq(n2.x, n2.y) == 1.0
    requires len != 0.0 && nb.x * len == n1.x + n2.x && nb.y * len == n1.y + n2.y
    ensures GeometryUtils.Dot(nb.x, nb.y, n1.x, n1.y) == GeometryUtils.Dot(nb.x, nb.y, n2.x, n2.y)
  {
    var d1 := GeometryUtils.Dot(nb.x, nb.y, n1.x, n1.y);
    var d2 := GeometryUtils.Dot(nb.x, nb.y, n2.x, n2.y);
    var cross := n2.x * n1.x + n2.y * n1.y;
    calc {
      len * d1;
      (nb.x * len) * n1.x + (nb.y * len) * n1.y;
      (n1.x + n2.x) * n1.x + (n1.y + n2.y) * n1.y;
      SumSq(n1.x, n1.y) + cross;
      1.0 + cross;
    }
    calc {
      len * d2;
      (nb.x * len) * n2.x + (nb.y * len) * n2.y;
      (n1.x + n2.x) * n2.x + (n1.y + n2.y) * n2.y;
      SumSq(n2.x, n2.y) + cross;
      1.0 + cross;
    }
    CancelNonZero(len, d1, d2);
  }

  /** Otherwise the label sits |offset| from the vertex on the bisector: its
      displacement makes the same dot product with both unit arms. */
  lemma AngleLabelOnBisector(m: MathLib, p1: Point, vertex: Point, p3: Point, offset: real)
    requires Lawful(m) && p1 != vertex && p3 != vertex
    requires Norm(m, Bisector(m, p1, vertex, p3).x, Bisector(m, p1, vertex, p3).y) != 0.0
    ensures SqDist(vertex, AngleLabelTarget(m, p1, vertex, p3, offset)) == Sq(offset)
    ensures GeometryUtils.Dot(AngleLabelTarget(m, p1, vertex, p3, offset).x - vertex.x,
                              AngleLabelTarget(m, p1, vertex, p3, offset).y - vertex.y,
                              Direction(m, vertex, p1).x, Direction(m, vertex, p1).y)
         == GeometryUtils.Dot(AngleLabelTarget(m, p1, vertex, p3, offset).x - vertex.x,
                              AngleLabelTarget(m, p1, vertex, p3, offset).y - vertex.y,
                              Direction(m, vertex, p3).x, Direction(m, vertex, p3).y)
  {
    var b := Bisector(m, p1, vertex, p3);
    DirectionLaws(m, vertex, p1);
    DirectionLaws(m, vertex, p3);
    NormLaws(m, b.x, b.y);
    UnitLaws(m, b.x, b.y);
    AlongLeaf(vertex, Unit(m, b.x, b.y), offset);
    AlongDot(vertex, Unit(m, b.x, b.y), offset, Direction(m, vertex, p1));
    AlongDot(vertex, Unit(m, b.x, b.y), offset, Direction(m, vertex, p3));
    EvenDots(Direction(m, vertex, p1), Direction(m, vertex, p3), Norm(m, b.x, b.y), Unit(m, b.x, b.y));
  }
}
