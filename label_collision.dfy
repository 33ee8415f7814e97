/** Placement of segment and angle labels so that they do not overlap.  Each
    label is a rotated rectangle around its anchor.  Labels are placed one by
    one in priority order: a label with a stored offset keeps it, any other
    label takes the first of a fixed list of candidate offsets whose
    rectangle meets no rectangle placed before it, and falls back to its
    preferred offset when every candidate is blocked. */
module LabelCollision {
  import opened Types
  import opened HostMath
  import GeometryUtils

  datatype LabelKind = SegmentLabel | AngleLabel

  /** A label's displacement from its anchor, in the label's own frame. */
  datatype Offset = Offset(dx: real, dy: real)

  /** `LabelDescriptor`; the three optional fields are `Option`s. */
  datatype LabelDescriptor = LabelDescriptor(
    id: string,
    kind: LabelKind,
    anchor: Point,
    rotation: real,
    text: string,
    fontSize: Option<real>,
    priority: Option<real>,
    preferredOffset: Option<Offset>)

  /** What the off-screen canvas reports for a text in a pixel font size: no
      2D context, a measured width, or an exception. */
  datatype Measurement = NoContext | Width(width: real) | Throws

  /** The browser's text measurement, supplied from outside. */
  type Canvas = (string, real) -> Measurement

  datatype TextSize = TextSize(width: real, height: real)

  /** A label's rectangle before an offset is chosen: anchor, padded width
      and height, and rotation in degrees. */
  datatype Box = Box(anchor: Point, w: real, h: real, rotation: real)

  // ---------------------------------------------------------------------
  // Measuring a label

  /** The width assumed when the canvas gives nothing usable. */
  function FallbackWidth(text: string, fontSize: real): real
  {
    |text| as real * fontSize * 0.6
  }

  /** `measureTextWidth`: None when the measurement throws. */
  function MeasureTextWidth(canvas: Canvas, text: string, fontSize: real): (r: Option<TextSize>)
    ensures r.None? <==> canvas(text, fontSize).Throws?
  {
    match canvas(text, fontSize)
    case NoContext => Some(TextSize(FallbackWidth(text, fontSize), fontSize * 1.2))
    case Width(w) => Some(TextSize(if w == 0.0 then FallbackWidth(text, fontSize) else w, fontSize * 1.2))
    case Throws => None
  }

  /** A measurement that does not throw is 1.2 font sizes high, and its width
      is the canvas's when that is non-zero and the fallback otherwise; for a
      positive font size, a non-empty text and a canvas that never reports a
      negative width, both sides are positive. */
  lemma MeasuredSize(canvas: Canvas, text: string, fontSize: real)
    requires !canvas(text, fontSize).Throws?
    ensures MeasureTextWidth(canvas, text, fontSize).Some?
    ensures MeasureTextWidth(canvas, text, fontSize).value.height == fontSize * 1.2
    ensures canvas(text, fontSize).Width? && canvas(text, fontSize).width != 0.0
            ==> MeasureTextWidth(canvas, text, fontSize).value.width == canvas(text, fontSize).width
    ensures !(canvas(text, fontSize).Width? && canvas(text, fontSize).width != 0.0)
            ==> MeasureTextWidth(canvas, text, fontSize).value.width == FallbackWidth(text, fontSize)
    ensures 0.0 < fontSize && |text| > 0 && !(canvas(text, fontSize).Width? && canvas(text, fontSize).width < 0.0)
            ==> 0.0 < MeasureTextWidth(canvas, text, fontSize).value.width
                && 0.0 < MeasureTextWidth(canvas, text, fontSize).value.height
  {
    if 0.0 < fontSize && |text| > 0 {
      PositiveProduct(|text| as real, fontSize);
    }
  }

  lemma PositiveProduct(n: real, f: real)
    requires 0.0 < n && 0.0 < f
    ensures 0.0 < n * f * 0.6
  {
    calc { n * f * 0.6; > 0.0 * f * 0.6; }
  }

  /** The font size: the descriptor's, else 12 for a segment label and 13
      for an angle label. */
  function FontSize(d: LabelDescriptor): real
  {
    match d.fontSize
    case Some(f) => f
    case None => if d.kind == SegmentLabel then 12.0 else 13.0
  }

  function MeasureLabel(canvas: Canvas, d: LabelDescriptor): Option<TextSize>
  {
    MeasureTextWidth(canvas, d.text, FontSize(d))
  }

  /** The rectangle is the measured text padded by 12 across and 6 down. */
  function LabelBox(d: LabelDescriptor, size: TextSize): (b: Box)
  {
    Box(d.anchor, size.width + 12.0, size.height + 6.0, d.rotation)
  }

  function PreferredOf(d: LabelDescriptor): Offset
  {
    match d.preferredOffset
    case Some(o) => o
    case None => Offset(0.0, 0.0)
  }

  function Priority(d: LabelDescriptor): real
  {
    match d.priority
    case Some(p) => p
    case None => 0.0
  }

  // ---------------------------------------------------------------------
  // The rotated rectangle

  /** The local point (px, py) turned by (c, s) and placed at (cx, cy). */
  function Corner(cx: real, cy: real, c: real, s: real, px: real, py: real): Point
  {
    Point(cx + px * c - py * s, cy + px * s + py * c)
  }

  /** `getRotatedRectPoints`: the four corners of a w by h rectangle shifted
      by `offset` in its own frame, turned by `rotationDeg` about (cx, cy). */
  function RectCorners(m: MathLib, cx: real, cy: real, w: real, h: real, rotationDeg: real, offset: Offset): (r: seq<Point>)
    ensures |r| == 4
  {
    var rad := GeometryUtils.DegToRad(m, rotationDeg);
    var c := m.cos(rad);
    var s := m.sin(rad);
    var hw := w / 2.0;
    var hh := h / 2.0;
    [ Corner(cx, cy, c, s, -hw + offset.dx, -hh + offset.dy),
      Corner(cx, cy, c, s, hw + offset.dx, -hh + offset.dy),
      Corner(cx, cy, c, s, hw + offset.dx, hh + offset.dy),
      Corner(cx, cy, c, s, -hw + offset.dx, hh + offset.dy) ]
  }

  function RectOf(m: MathLib, b: Box, offset: Offset): seq<Point>
  {
    RectCorners(m, b.anchor.x, b.anchor.y, b.w, b.h, b.rotation, offset)
  }

  /** Two turned points are as far apart as the local points were. */
  lemma CornerGap(cx: real, cy: real, c: real, s: real, px: real, py: real, qx: real, qy: real, a: real, b: real)
    requires SumSq(c, s) == 1.0 && qx - px == a && qy - py == b
    ensures SqDist(Corner(cx, cy, c, s, px, py), Corner(cx, cy, c, s, qx, qy)) == SumSq(a, b)
  {
    assert Corner(cx, cy, c, s, qx, qy).x - Corner(cx, cy, c, s, px, py).x == a * c - b * s;
    assert Corner(cx, cy, c, s, qx, qy).y - Corner(cx, cy, c, s, px, py).y == a * s + b * c;
    GeometryUtils.RotationKeepsNorm(a, b, c, s);
  }

  /** The corners form a w by h rectangle: opposite sides have squared
      lengths w² and h², its diagonal has squared length w² + h², and the
      diagonal's midpoint is the anchor plus the turned offset. */
  lemma RectangleShape(m: MathLib, cx: real, cy: real, w: real, h: real, rotationDeg: real, offset: Offset)
    requires Lawful(m)
    ensures var r := RectCorners(m, cx, cy, w, h, rotationDeg, offset);
            && SqDist(r[0], r[1]) == SumSq(w, 0.0) && SqDist(r[3], r[2]) == SumSq(w, 0.0)
            && SqDist(r[1], r[2]) == SumSq(0.0, h) && SqDist(r[0], r[3]) == SumSq(0.0, h)
            && SqDist(r[0], r[2]) == SumSq(w, h)
    ensures var r := RectCorners(m, cx, cy, w, h, rotationDeg, offset);
            var rad := GeometryUtils.DegToRad(m, rotationDeg);
            (r[0].x + r[2].x) / 2.0 == Corner(cx, cy, m.cos(rad), m.sin(rad), offset.dx, offset.dy).x
            && (r[0].y + r[2].y) / 2.0 == Corner(cx, cy, m.cos(rad), m.sin(rad), offset.dx, offset.dy).y
  {
    var rad := GeometryUtils.DegToRad(m, rotationDeg);
    var c := m.cos(rad);
    var s := m.sin(rad);
    var hw := w / 2.0;
    var hh := h / 2.0;
    CosSinUnit(m, rad);
    CornerGap(cx, cy, c, s, -hw + offset.dx, -hh + offset.dy, hw + offset.dx, -hh + offset.dy, w, 0.0);
    CornerGap(cx, cy, c, s, -hw + offset.dx, hh + offset.dy, hw + offset.dx, hh + offset.dy, w, 0.0);
    CornerGap(cx, cy, c, s, hw + offset.dx, -hh + offset.dy, hw + offset.dx, hh + offset.dy, 0.0, h);
    CornerGap(cx, cy, c, s, -hw + offset.dx, -hh + offset.dy, -hw + offset.dx, hh + offset.dy, 0.0, h);
    CornerGap(cx, cy, c, s, -hw + offset.dx, -hh + offset.dy, hw + offset.dx, hh + offset.dy, w, h);
    CornerMidpoint(cx, cy, c, s, -hw + offset.dx, -hh + offset.dy, hw + offset.dx, hh + offset.dy, offset.dx, offset.dy);
  }

  lemma CornerMidpoint(cx: real, cy: real, c: real, s: real, px: real, py: real, qx: real, qy: real, ox: real, oy: real)
    requires px + qx == 2.0 * ox && py + qy == 2.0 * oy
    ensures (Corner(cx, cy, c, s, px, py).x + Corner(cx, cy, c, s, qx, qy).x) / 2.0 == Corner(cx, cy, c, s, ox, oy).x
    ensures (Corner(cx, cy, c, s, px, py).y + Corner(cx, cy, c, s, qx, qy).y) / 2.0 == Corner(cx, cy, c, s, ox, oy).y
  {
    calc {
      Corner(cx, cy, c, s, px, py).x + Corner(cx, cy, c, s, qx, qy).x;
      2.0 * cx + (px + qx) * c - (py + qy) * s;
      2.0 * cx + (2.0 * ox) * c - (2.0 * oy) * s;
      2.0 * Corner(cx, cy, c, s, ox, oy).x;
    }
    calc {
      Corner(cx, cy, c, s, px, py).y + Corner(cx, cy, c, s, qx, qy).y;
      2.0 * cy + (px + qx) * s + (py + qy) * c;
      2.0 * cy + (2.0 * ox) * s + (2.0 * oy) * c;
      2.0 * Corner(cx, cy, c, s, ox, oy).y;
    }
  }

  // ---------------------------------------------------------------------
  // Extended minima and maxima, and the separating-axis test

  /** `Math.min(acc, x)` where None is +Infinity, and `Math.max(acc, x)`
      where None is -Infinity. */
  function MinWith(acc: Option<real>, x: real): real
  {
    match acc
    case None => x
    case Some(v) => if v < x then v else x
  }

  function MaxWith(acc: Option<real>, x: real): real
  {
    match acc
    case None => x
    case Some(v) => if v > x then v else x
  }

  /** `Math.min(...s)` and `Math.max(...s)`, None standing for the infinity
      they return on an empty list. */
  function SeqMin(s: seq<real>): Option<real>
  {
    if |s| == 0 then None else Some(MinWith(SeqMin(s[..|s| - 1]), s[|s| - 1]))
  }

  function SeqMax(s: seq<real>): Option<real>
  {
    if |s| == 0 then None else Some(MaxWith(SeqMax(s[..|s| - 1]), s[|s| - 1]))
  }

  /** The minimum exists exactly for a non-empty list, is below every entry
      and is one of them. */
  lemma {:induction false} SeqMinLaws(s: seq<real>)
    ensures SeqMin(s).None? <==> |s| == 0
    ensures SeqMin(s).Some? ==> (forall i :: 0 <= i < |s| ==> SeqMin(s).value <= s[i])
                                && exists i :: 0 <= i < |s| && s[i] == SeqMin(s).value
  {
    if |s| > 0 {
      var init := s[..|s| - 1];
      SeqMinLaws(init);
      if SeqMin(init).Some? {
        var k :| 0 <= k < |init| && init[k] == SeqMin(init).value;
        assert s[k] == init[k];
      }
      forall i | 0 <= i < |s| - 1 ensures s[i] == init[i] { }
    }
  }

  lemma {:induction false} SeqMaxLaws(s: seq<real>)
    ensures SeqMax(s).None? <==> |s| == 0
    ensures SeqMax(s).Some? ==> (forall i :: 0 <= i < |s| ==> s[i] <= SeqMax(s).value)
                                && exists i :: 0 <= i < |s| && s[i] == SeqMax(s).value
  {
    if |s| > 0 {
      var init := s[..|s| - 1];
      SeqMaxLaws(init);
      if SeqMax(init).Some? {
        var k :| 0 <= k < |init| && init[k] == SeqMax(init).value;
        assert s[k] == init[k];
      }
      forall i | 0 <= i < |s| - 1 ensures s[i] == init[i] { }
    }
  }

  /** `hi < lo` on the extended reals: -Infinity and +Infinity compare below
      and above everything. */
  predicate Below(hi: Option<real>, lo: Option<real>)
  {
    hi.None? || lo.None? || hi.value < lo.value
  }

  /** max(xs) < min(ys) holds exactly when every x lies below every y. */
  lemma BelowIffAllBelow(xs: seq<real>, ys: seq<real>)
    ensures Below(SeqMax(xs), SeqMin(ys))
            <==> forall i, j :: 0 <= i < |xs| && 0 <= j < |ys| ==> xs[i] < ys[j]
  {
    SeqMaxLaws(xs);
    SeqMinLaws(ys);
    if SeqMax(xs).Some? && SeqMin(ys).Some? {
      var i0 :| 0 <= i0 < |xs| && xs[i0] == SeqMax(xs).value;
      var j0 :| 0 <= j0 < |ys| && ys[j0] == SeqMin(ys).value;
      if forall i, j :: 0 <= i < |xs| && 0 <= j < |ys| ==> xs[i] < ys[j] {
        assert xs[i0] < ys[j0];
      }
    }
  }

  /** Each point's projection on an axis, `p.x * axis.x + p.y * axis.y`. */
  function Projections(points: seq<Point>, axis: Point): (r: seq<real>)
    ensures |r| == |points|
    ensures forall i :: 0 <= i < |points| ==> r[i] == GeometryUtils.Dot(points[i].x, points[i].y, axis.x, axis.y)
  {
    seq(|points|, i requires 0 <= i < |points| => GeometryUtils.Dot(points[i].x, points[i].y, axis.x, axis.y))
  }

  /** The unit normal of edge j (from vertex j to the next one, cyclically),
      or the raw normal when the edge has length 0. */
  function EdgeAxis(m: MathLib, polygon: seq<Point>, j: nat): Point
    requires j < |polygon|
  {
    var k := (j + 1) % |polygon|;
    var edge := Point(polygon[k].x - polygon[j].x, polygon[k].y - polygon[j].y);
    var axis := Point(-edge.y, edge.x);
    var n := Norm(m, axis.x, axis.y);
    var normalize := if n == 0.0 then 1.0 else n;
    Point(axis.x / normalize, axis.y / normalize)
  }

  /** For an edge of non-zero length the axis is a unit vector orthogonal to
      the edge. */
  lemma EdgeAxisIsUnitNormal(m: MathLib, polygon: seq<Point>, j: nat)
    requires Lawful(m) && j < |polygon| && polygon[(j + 1) % |polygon|] != polygon[j]
    ensures var k := (j + 1) % |polygon|;
            var a := EdgeAxis(m, polygon, j);
            && SumSq(a.x, a.y) == 1.0
            && GeometryUtils.Dot(a.x, a.y, polygon[k].x - polygon[j].x, polygon[k].y - polygon[j].y) == 0.0
  {
    var k := (j + 1) % |polygon|;
    var p, q := polygon[j], polygon[k];
    GeometryUtils.PointsEqualIff(p, q);
    var ex, ey := q.x - p.x, q.y - p.y;
    NormPositive(m, -ey, ex);
    SumSqNonNegative(-ey, ex);
    SqrtSquared(m, SumSq(-ey, ex));
    var n := Norm(m, -ey, ex);
    assert EdgeAxis(m, polygon, j) == Point(-ey / n, ex / n);
    NormalLeaf(ex, ey, n);
  }

  lemma NormalLeaf(ex: real, ey: real, n: real)
    requires 0.0 < n && Sq(n) == SumSq(-ey, ex)
    ensures SumSq(-ey / n, ex / n) == 1.0
    ensures GeometryUtils.Dot(-ey / n, ex / n, ex, ey) == 0.0
  {
    UnitAfterDivision(-ey, ex, n);
    var u := -ey / n;
    var v := ex / n;
    assert u * n == -ey && v * n == ex;
    calc {
      (u * ex + v * ey) * n;
      (u * n) * ex + (v * n) * ey;
      -ey * ex + ex * ey;
      0.0;
    }
  }

  /** The projections of a and b on `axis` do not overlap. */
  predicate Separated(a: seq<Point>, b: seq<Point>, axis: Point)
  {
    Below(SeqMax(Projections(a, axis)), SeqMin(Projections(b, axis)))
    || Below(SeqMax(Projections(b, axis)), SeqMin(Projections(a, axis)))
  }

  /** Some edge normal of a or of b separates the two polygons. */
  ghost predicate SomeEdgeSeparates(m: MathLib, a: seq<Point>, b: seq<Point>)
  {
    (exists j :: 0 <= j < |a| && Separated(a, b, EdgeAxis(m, a, j)))
    || (exists j :: 0 <= j < |b| && Separated(a, b, EdgeAxis(m, b, j)))
  }

  /** Separation on an axis means every projection of one polygon lies below
      every projection of the other. */
  lemma SeparatedIff(a: seq<Point>, b: seq<Point>, axis: Point)
    ensures var pa := Projections(a, axis);
            var pb := Projections(b, axis);
            Separated(a, b, axis)
            <==> (forall i, j :: 0 <= i < |a| && 0 <= j < |b| ==> pa[i] < pb[j])
                 || (forall i, j :: 0 <= i < |a| && 0 <= j < |b| ==> pb[j] < pa[i])
  {
    var pa := Projections(a, axis);
    var pb := Projections(b, axis);
    BelowIffAllBelow(pa, pb);
    BelowIffAllBelow(pb, pa);
  }

  /** The running minimum and maximum of the projections of `points`. */
  method ProjectionBounds(points: seq<Point>, axis: Point) returns (lo: Option<real>, hi: Option<real>)
    ensures lo == SeqMin(Projections(points, axis))
    ensures hi == SeqMax(Projections(points, axis))
  {
    ghost var ps := Projections(points, axis);
    lo, hi := None, None;
    var i := 0;
    while i < |points|
      invariant 0 <= i <= |points|
      invariant lo == SeqMin(ps[..i]) && hi == SeqMax(ps[..i])
    {
      var proj := points[i].x * axis.x + points[i].y * axis.y;
      assert ps[..i + 1][..i] == ps[..i] && ps[..i + 1][i] == ps[i] == proj;
      lo := Some(MinWith(lo, proj));
      hi := Some(MaxWith(hi, proj));
      i := i + 1;
    }
    assert ps[..i] == ps;
  }

  /** `polygonsIntersect`: false exactly when some edge normal of either
      polygon separates their projections. */
  method PolygonsIntersect(m: MathLib, a: seq<Point>, b: seq<Point>) returns (r: bool)
    ensures r == !SomeEdgeSeparates(m, a, b)
  {
    var polygons := [a, b];
    var i := 0;
    while i < |polygons|
      invariant 0 <= i <= 2
      invariant i >= 1 ==> forall j :: 0 <= j < |a| ==> !Separated(a, b, EdgeAxis(m, a, j))
      invariant i >= 2 ==> forall j :: 0 <= j < |b| ==> !Separated(a, b, EdgeAxis(m, b, j))
    {
      var polygon := polygons[i];
      var j := 0;
      while j < |polygon|
        invariant 0 <= j <= |polygon|
        invariant forall jj :: 0 <= jj < j ==> !Separated(a, b, EdgeAxis(m, polygon, jj))
      {
        var axis := EdgeAxis(m, polygon, j);
        var minA, maxA := ProjectionBounds(a, axis);
        var minB, maxB := ProjectionBounds(b, axis);
        if Below(maxA, minB) || Below(maxB, minA) {
          assert Separated(a, b, EdgeAxis(m, polygon, j));
          return false;
        }
        j := j + 1;
      }
      i := i + 1;
    }
    return true;
  }

  function Xs(poly: seq<Point>): (r: seq<real>)
    ensures |r| == |poly| && forall i :: 0 <= i < |poly| ==> r[i] == poly[i].x
  {
    seq(|poly|, i requires 0 <= i < |poly| => poly[i].x)
  }

  function Ys(poly: seq<Point>): (r: seq<real>)
    ensures |r| == |poly| && forall i :: 0 <= i < |poly| ==> r[i] == poly[i].y
  {
    seq(|poly|, i requires 0 <= i < |poly| => poly[i].y)
  }

  /** The quick test: the axis-aligned bounding boxes do not overlap. */
  predicate AabbDisjoint(a: seq<Point>, b: seq<Point>)
  {
    || Below(SeqMax(Xs(a)), SeqMin(Xs(b)))
    || Below(SeqMax(Xs(b)), SeqMin(Xs(a)))
    || Below(SeqMax(Ys(a)), SeqMin(Ys(b)))
    || Below(SeqMax(Ys(b)), SeqMin(Ys(a)))
  }

  /** A hit: the boxes overlap and no edge normal separates the polygons. */
  ghost predicate Hits(m: MathLib, a: seq<Point>, b: seq<Point>)
  {
    !AabbDisjoint(a, b) && !SomeEdgeSeparates(m, a, b)
  }

  /** Rectangles with disjoint x-ranges, or disjoint y-ranges, never hit. */
  lemma DisjointRangesNeverHit(m: MathLib, a: seq<Point>, b: seq<Point>)
    ensures (forall i, j :: 0 <= i < |a| && 0 <= j < |b| ==> a[i].x < b[j].x) ==> !Hits(m, a, b)
    ensures (forall i, j :: 0 <= i < |a| && 0 <= j < |b| ==> a[i].y < b[j].y) ==> !Hits(m, a, b)
  {
    BelowIffAllBelow(Xs(a), Xs(b));
    BelowIffAllBelow(Ys(a), Ys(b));
  }

  /** Polygons sharing a point hit: no test can separate them. */
  lemma SharedPointHits(m: MathLib, a: seq<Point>, b: seq<Point>, i: nat, j: nat)
    requires i < |a| && j < |b| && a[i] == b[j]
    ensures Hits(m, a, b)
  {
    BelowIffAllBelow(Xs(a), Xs(b));
    BelowIffAllBelow(Xs(b), Xs(a));
    BelowIffAllBelow(Ys(a), Ys(b));
    BelowIffAllBelow(Ys(b), Ys(a));
    assert Xs(a)[i] == Xs(b)[j] && Ys(a)[i] == Ys(b)[j];
    forall q | 0 <= q < |a| ensures !Separated(a, b, EdgeAxis(m, a, q)) {
      SharedPointNotSeparated(a, b, EdgeAxis(m, a, q), i, j);
    }
    forall q | 0 <= q < |b| ensures !Separated(a, b, EdgeAxis(m, b, q)) {
      SharedPointNotSeparated(a, b, EdgeAxis(m, b, q), i, j);
    }
  }

  lemma SharedPointNotSeparated(a: seq<Point>, b: seq<Point>, axis: Point, i: nat, j: nat)
    requires i < |a| && j < |b| && a[i] == b[j]
    ensures !Separated(a, b, axis)
  {
    SeparatedIff(a, b, axis);
    assert Projections(a, axis)[i] == Projections(b, axis)[j];
  }

  /** A rectangle that hits none of the placed ones. */
  ghost predicate Clear(m: MathLib, poly: seq<Point>, placed: seq<seq<Point>>)
  {
    forall q :: 0 <= q < |placed| ==> !Hits(m, poly, placed[q])
  }

  /** The inner loop over the placed rectangles: a bounding-box check, then
      the separating-axis test. */
  method HitsPlaced(m: MathLib, poly: seq<Point>, placed: seq<seq<Point>>) returns (hits: bool)
    ensures hits <==> !Clear(m, poly, placed)
  {
    hits := false;
    var q := 0;
    while q < |placed|
      invariant 0 <= q <= |placed|
      invariant forall q' :: 0 <= q' < q ==> !Hits(m, poly, placed[q'])
    {
      var other := placed[q];
      if !AabbDisjoint(poly, other) {
        var inter := PolygonsIntersect(m, poly, other);
        if inter {
          hits := true;
          return;
        }
      }
      q := q + 1;
    }
  }

  // ---------------------------------------------------------------------
  // Candidate offsets and the first clear one

  /** The shift sizes tried, in order. */
  const Magnitudes: seq<real> := [12.0, -12.0, 24.0, -24.0, 36.0, -36.0, 48.0, -48.0]

  function Shift(o: Offset, ux: real, uy: real, mag: real): Offset
  {
    Offset(o.dx + ux * mag, o.dy + uy * mag)
  }

  /** Shifts across the text direction, (-sin, cos), and along it, (cos, sin). */
  function PerpShifts(m: MathLib, rad: real, preferred: Offset): seq<Offset>
  {
    seq(|Magnitudes|, i requires 0 <= i < |Magnitudes| => Shift(preferred, -m.sin(rad), m.cos(rad), Magnitudes[i]))
  }

  function RadialShifts(m: MathLib, rad: real, preferred: Offset): seq<Offset>
  {
    seq(|Magnitudes|, i requires 0 <= i < |Magnitudes| => Shift(preferred, m.cos(rad), m.sin(rad), Magnitudes[i]))
  }

  /** The 17 candidates: preferred, then the perpendicular, then the radial
      shifts. */
  function Candidates(m: MathLib, rotation: real, preferred: Offset): seq<Offset>
  {
    var rad := GeometryUtils.DegToRad(m, rotation);
    [preferred] + PerpShifts(m, rad, preferred) + RadialShifts(m, rad, preferred)
  }

  /** The candidate list has 17 entries and starts with the preferred
      offset; entry i in 1..8 moves it by |Magnitudes[i-1]| straight across
      the text direction and entry i in 9..16 by |Magnitudes[i-9]| along it. */
  lemma CandidateLaws(m: MathLib, rotation: real, preferred: Offset)
    requires Lawful(m)
    ensures var c := Candidates(m, rotation, preferred);
            |c| == 17 && c[0] == preferred
    ensures var c := Candidates(m, rotation, preferred);
            var rad := GeometryUtils.DegToRad(m, rotation);
            forall i :: 1 <= i < 9 ==>
              && SumSq(c[i].dx - preferred.dx, c[i].dy - preferred.dy) == Sq(Magnitudes[i - 1])
              && GeometryUtils.Dot(c[i].dx - preferred.dx, c[i].dy - preferred.dy, m.cos(rad), m.sin(rad)) == 0.0
    ensures var c := Candidates(m, rotation, preferred);
            var rad := GeometryUtils.DegToRad(m, rotation);
            forall i :: 9 <= i < 17 ==>
              && SumSq(c[i].dx - preferred.dx, c[i].dy - preferred.dy) == Sq(Magnitudes[i - 9])
              && GeometryUtils.Cross(c[i].dx - preferred.dx, c[i].dy - preferred.dy, m.cos(rad), m.sin(rad)) == 0.0
  {
    var c := Candidates(m, rotation, preferred);
    var rad := GeometryUtils.DegToRad(m, rotation);
    var co := m.cos(rad);
    var si := m.sin(rad);
    CosSinUnit(m, rad);
    forall i | 1 <= i < 9
      ensures SumSq(c[i].dx - preferred.dx, c[i].dy - preferred.dy) == Sq(Magnitudes[i - 1])
      ensures GeometryUtils.Dot(c[i].dx - preferred.dx, c[i].dy - preferred.dy, co, si) == 0.0
    {
      assert c[i] == Shift(preferred, -si, co, Magnitudes[i - 1]);
      PerpShiftLeaf(preferred, co, si, Magnitudes[i - 1], c[i]);
    }
    forall i | 9 <= i < 17
      ensures SumSq(c[i].dx - preferred.dx, c[i].dy - preferred.dy) == Sq(Magnitudes[i - 9])
      ensures GeometryUtils.Cross(c[i].dx - preferred.dx, c[i].dy - preferred.dy, co, si) == 0.0
    {
      assert c[i] == Shift(preferred, co, si, Magnitudes[i - 9]);
      RadialShiftLeaf(preferred, co, si, Magnitudes[i - 9], c[i]);
    }
  }

  lemma PerpShiftLeaf(o: Offset, co: real, si: real, mag: real, r: Offset)
    requires SumSq(co, si) == 1.0 && r == Shift(o, -si, co, mag)
    ensures SumSq(r.dx - o.dx, r.dy - o.dy) == Sq(mag)
    ensures GeometryUtils.Dot(r.dx - o.dx, r.dy - o.dy, co, si) == 0.0
  {
    assert r.dx - o.dx == (-si) * mag && r.dy - o.dy == co * mag;
    GeometryUtils.SqNegate(si);
    assert SumSq(-si, co) == 1.0;
    ScaledUnit(-si, co, mag);
    calc {
      GeometryUtils.Dot((-si) * mag, co * mag, co, si);
      (-si) * mag * co + co * mag * si;
      0.0;
    }
  }

  lemma RadialShiftLeaf(o: Offset, co: real, si: real, mag: real, r: Offset)
    requires SumSq(co, si) == 1.0 && r == Shift(o, co, si, mag)
    ensures SumSq(r.dx - o.dx, r.dy - o.dy) == Sq(mag)
    ensures GeometryUtils.Cross(r.dx - o.dx, r.dy - o.dy, co, si) == 0.0
  {
    assert r.dx - o.dx == co * mag && r.dy - o.dy == si * mag;
    ScaledUnit(co, si, mag);
    calc {
      GeometryUtils.Cross(co * mag, si * mag, co, si);
      co * mag * si - co * (si * mag);
      0.0;
    }
  }

  /** The candidate list, pushed entry by entry. */
  method BuildCandidates(m: MathLib, rotation: real, preferred: Offset) returns (cands: seq<Offset>)
    ensures cands == Candidates(m, rotation, preferred)
  {
    var rad := GeometryUtils.DegToRad(m, rotation);
    var perpX, perpY := -m.sin(rad), m.cos(rad);
    ghost var perp := PerpShifts(m, rad, preferred);
    ghost var radial := RadialShifts(m, rad, preferred);
    cands := [preferred];
    for i := 0 to |Magnitudes|
      invariant cands == [preferred] + perp[..i]
    {
      cands := cands + [Shift(preferred, perpX, perpY, Magnitudes[i])];
    }
    assert perp[..|Magnitudes|] == perp;
    for i := 0 to |Magnitudes|
      invariant cands == [preferred] + perp + radial[..i]
    {
      cands := cands + [Shift(preferred, m.cos(rad), m.sin(rad), Magnitudes[i])];
    }
    assert radial[..|Magnitudes|] == radial;
  }

  /** Which candidates' rectangles are clear. */
  ghost function ClearFlags(m: MathLib, b: Box, cands: seq<Offset>, placed: seq<seq<Point>>): (r: seq<bool>)
    ensures |r| == |cands|
    ensures forall j :: 0 <= j < |cands| ==> r[j] == Clear(m, RectOf(m, b, cands[j]), placed)
  {
    seq(|cands|, j requires 0 <= j < |cands| => Clear(m, RectOf(m, b, cands[j]), placed))
  }

  /** The index of the first true flag from k on, or |flags| when there is
      none. */
  function FirstTrue(flags: seq<bool>, k: nat): nat
    requires k <= |flags|
    decreases |flags| - k
  {
    if k == |flags| then k else if flags[k] then k else FirstTrue(flags, k + 1)
  }

  lemma {:induction false} FirstTrueLaws(flags: seq<bool>, k: nat)
    requires k <= |flags|
    ensures k <= FirstTrue(flags, k) <= |flags|
    ensures FirstTrue(flags, k) < |flags| ==> flags[FirstTrue(flags, k)]
    ensures forall i :: k <= i < FirstTrue(flags, k) ==> !flags[i]
    decreases |flags| - k
  {
    if k < |flags| && !flags[k] {
      FirstTrueLaws(flags, k + 1);
    }
  }

  /** The first candidate whose rectangle is clear, else the preferred
      offset. */
  ghost function FirstClear(m: MathLib, b: Box, cands: seq<Offset>, preferred: Offset, placed: seq<seq<Point>>): Offset
  {
    var j := FirstTrue(ClearFlags(m, b, cands, placed), 0);
    if j < |cands| then cands[j] else preferred
  }

  /** When some candidate is clear, the choice is the first clear one;
      otherwise it is the preferred offset.  Either way it is a candidate
      when the preferred offset is one. */
  lemma FirstClearLaws(m: MathLib, b: Box, cands: seq<Offset>, preferred: Offset, placed: seq<seq<Point>>)
    ensures (forall j :: 0 <= j < |cands| ==> !Clear(m, RectOf(m, b, cands[j]), placed))
            ==> FirstClear(m, b, cands, preferred, placed) == preferred
    ensures (exists j :: 0 <= j < |cands| && Clear(m, RectOf(m, b, cands[j]), placed))
            ==> exists j :: 0 <= j < |cands| && FirstClear(m, b, cands, preferred, placed) == cands[j]
                            && Clear(m, RectOf(m, b, cands[j]), placed)
                            && forall i :: 0 <= i < j ==> !Clear(m, RectOf(m, b, cands[i]), placed)
    ensures preferred in cands ==> FirstClear(m, b, cands, preferred, placed) in cands
  {
    var flags := ClearFlags(m, b, cands, placed);
    FirstTrueLaws(flags, 0);
  }

  /** The scan over the candidates with break on the first clear one, and
      the fallback to the preferred offset. */
  method ChooseOffset(m: MathLib, b: Box, cands: seq<Offset>, preferred: Offset, placed: seq<seq<Point>>)
    returns (chosen: Offset, poly: seq<Point>)
    ensures chosen == FirstClear(m, b, cands, preferred, placed)
    ensures poly == RectOf(m, b, chosen)
  {
    ghost var flags := ClearFlags(m, b, cands, placed);
    var placedPoly: Option<seq<Point>> := None;
    chosen := preferred;
    var i := 0;
    while i < |cands|
      invariant 0 <= i <= |cands|
      invariant FirstTrue(flags, 0) == FirstTrue(flags, i)
      invariant placedPoly == None && chosen == preferred
    {
      var candidatePoly := RectOf(m, b, cands[i]);
      var hits := HitsPlaced(m, candidatePoly, placed);
      if !hits {
        placedPoly := Some(candidatePoly);
        chosen := cands[i];
        break;
      }
      i := i + 1;
    }
    if placedPoly.None? {
      poly := RectOf(m, b, preferred);
      chosen := preferred;
    } else {
      poly := placedPoly.value;
    }
  }

  // ---------------------------------------------------------------------
  // The processing order

  /** `a.id < b.id`, comparing character codes. */
  predicate LexLess(a: string, b: string)
  {
    if |a| == 0 then |b| > 0
    else if |b| == 0 then false
    else if a[0] != b[0] then a[0] < b[0]
    else LexLess(a[1..], b[1..])
  }

  lemma {:induction false} LexLessAsymmetric(a: string, b: string)
    ensures LexLess(a, b) ==> !LexLess(b, a)
  {
    if |a| > 0 && |b| > 0 && a[0] == b[0] {
      LexLessAsymmetric(a[1..], b[1..]);
    }
  }

  /** a < c forces a < b or b < c. */
  lemma {:induction false} LexLessSplits(a: string, b: string, c: string)
    ensures LexLess(a, c) ==> LexLess(a, b) || LexLess(b, c)
  {
    if |a| > 0 && |b| > 0 && |c| > 0 && a[0] == b[0] && b[0] == c[0] {
      LexLessSplits(a[1..], b[1..], c[1..]);
    }
  }

  /** a comes strictly before b: higher priority, or equal priority and
      smaller id. */
  predicate Precedes(a: LabelDescriptor, b: LabelDescriptor)
  {
    Priority(a) > Priority(b) || (Priority(a) == Priority(b) && LexLess(a.id, b.id))
  }

  lemma PrecedesLaws(a: LabelDescriptor, b: LabelDescriptor, c: LabelDescriptor)
    ensures Precedes(a, b) ==> !Precedes(b, a)
    ensures Precedes(a, c) ==> Precedes(a, b) || Precedes(b, c)
  {
    LexLessAsymmetric(a.id, b.id);
    LexLessSplits(a.id, b.id, c.id);
  }

  predicate Sorted(s: seq<LabelDescriptor>)
  {
    forall i, j :: 0 <= i < j < |s| ==> !Precedes(s[j], s[i])
  }

  /** Inserting x after every entry it does not precede. */
  function InsertByOrder(s: seq<LabelDescriptor>, x: LabelDescriptor): seq<LabelDescriptor>
  {
    if |s| == 0 then [x]
    else if Precedes(x, s[|s| - 1]) then InsertByOrder(s[..|s| - 1], x) + [s[|s| - 1]]
    else s + [x]
  }

  /** The stable sort of the descriptors by `Precedes`. */
  function SortByOrder(s: seq<LabelDescriptor>): seq<LabelDescriptor>
  {
    if |s| == 0 then [] else InsertByOrder(SortByOrder(s[..|s| - 1]), s[|s| - 1])
  }

  lemma {:induction false} InsertByOrderLaws(s: seq<LabelDescriptor>, x: LabelDescriptor)
    requires Sorted(s)
    ensures multiset(InsertByOrder(s, x)) == multiset(s) + multiset{x}
    ensures Sorted(InsertByOrder(s, x))
    decreases |s|, 1
  {
    if |s| > 0 {
      if Precedes(x, s[|s| - 1]) {
        InsertBeforeLast(s, x);
      } else {
        AppendAfterLast(s, x);
      }
    }
  }

  /** x precedes the last entry: it goes into the prefix, and the last entry
      stays last. */
  lemma {:induction false} InsertBeforeLast(s: seq<LabelDescriptor>, x: LabelDescriptor)
    requires Sorted(s) && |s| > 0 && Precedes(x, s[|s| - 1])
    ensures multiset(InsertByOrder(s, x)) == multiset(s) + multiset{x}
    ensures Sorted(InsertByOrder(s, x))
    decreases |s|, 0
  {
    var n := |s|;
    var last := s[n - 1];
    var init := s[..n - 1];
    assert s == init + [last];
    InsertByOrderLaws(init, x);
    var t := InsertByOrder(init, x);
    assert InsertByOrder(s, x) == t + [last];
    forall e | e in multiset(t) ensures !Precedes(last, e) {
      if e == x {
        PrecedesLaws(x, last, x);
      } else {
        assert e in init;
        var i :| 0 <= i < |init| && init[i] == e;
        assert s[i] == e;
      }
    }
    forall i | 0 <= i < |t| ensures !Precedes(last, t[i]) {
      assert t[i] in multiset(t);
    }
  }

  /** x does not precede the last entry, so it precedes none and is
      appended. */
  lemma AppendAfterLast(s: seq<LabelDescriptor>, x: LabelDescriptor)
    requires Sorted(s) && |s| > 0 && !Precedes(x, s[|s| - 1])
    ensures multiset(InsertByOrder(s, x)) == multiset(s) + multiset{x}
    ensures Sorted(InsertByOrder(s, x))
  {
    var last := s[|s| - 1];
    assert InsertByOrder(s, x) == s + [x];
    forall i | 0 <= i < |s| ensures !Precedes(x, s[i]) {
      PrecedesLaws(x, last, s[i]);
    }
  }

  /** The order is a sorted permutation of the descriptors. */
  lemma {:induction false} SortByOrderLaws(s: seq<LabelDescriptor>)
    ensures multiset(SortByOrder(s)) == multiset(s)
    ensures Sorted(SortByOrder(s))
  {
    if |s| > 0 {
      var init := s[..|s| - 1];
      SortByOrderLaws(init);
      InsertByOrderLaws(SortByOrder(init), s[|s| - 1]);
      assert s == init + [s[|s| - 1]];
    }
  }

  // ---------------------------------------------------------------------
  // The resolver

  /** The offset a measured label gets: its stored one when it has one,
      else the first clear candidate. */
  ghost function Place(m: MathLib, d: LabelDescriptor, size: TextSize, existing: map<string, Offset>, placed: seq<seq<Point>>): Offset
  {
    if d.id in existing then existing[d.id]
    else FirstClear(m, LabelBox(d, size), Candidates(m, d.rotation, PreferredOf(d)), PreferredOf(d), placed)
  }

  /** A pinned label keeps its stored offset; any other label gets one of
      its own candidates. */
  lemma PlaceLaws(m: MathLib, d: LabelDescriptor, size: TextSize, existing: map<string, Offset>, placed: seq<seq<Point>>)
    ensures d.id in existing ==> Place(m, d, size, existing, placed) == existing[d.id]
    ensures d.id !in existing ==> Place(m, d, size, existing, placed) in Candidates(m, d.rotation, PreferredOf(d))
  {
    var cands := Candidates(m, d.rotation, PreferredOf(d));
    assert cands[0] == PreferredOf(d);
    FirstClearLaws(m, LabelBox(d, size), cands, PreferredOf(d), placed);
  }

  /** Processing `order` from the state (placed rectangles, results so far);
      None when a measurement throws.  Every label's rectangle, at the
      offset it gets, joins the obstacles for the labels after it. */
  ghost function Resolve(m: MathLib, canvas: Canvas, order: seq<LabelDescriptor>, existing: map<string, Offset>,
                         placed: seq<seq<Point>>, results: map<string, Offset>): Option<map<string, Offset>>
    decreases |order|
  {
    if |order| == 0 then Some(results)
    else
      var d := order[0];
      match MeasureLabel(canvas, d)
      case None => None
      case Some(size) =>
        var o := Place(m, d, size, existing, placed);
        Resolve(m, canvas, order[1..], existing, placed + [RectOf(m, LabelBox(d, size), o)], results[d.id := o])
  }

  /** Every pinned label has its stored offset. */
  ghost predicate Pinned(results: map<string, Offset>, existing: map<string, Offset>)
  {
    forall k :: k in results && k in existing ==> results[k] == existing[k]
  }

  /** Every floating result is a candidate of some descriptor with that id. */
  ghost predicate FromCandidates(m: MathLib, results: map<string, Offset>, existing: map<string, Offset>, ds: seq<LabelDescriptor>)
  {
    forall k :: k in results && k !in existing ==>
      exists d :: d in ds && d.id == k && results[k] in Candidates(m, d.rotation, PreferredOf(d))
  }

  function Ids(ds: seq<LabelDescriptor>): set<string>
  {
    set d | d in ds :: d.id
  }

  /** The run fails exactly when some measurement throws. */
  lemma {:induction false} ResolveFails(m: MathLib, canvas: Canvas, order: seq<LabelDescriptor>, existing: map<string, Offset>,
                                        placed: seq<seq<Point>>, results: map<string, Offset>)
    ensures Resolve(m, canvas, order, existing, placed, results).None?
            <==> exists d :: d in order && MeasureLabel(canvas, d).None?
    decreases |order|
  {
    if |order| > 0 {
      assert order == [order[0]] + order[1..];
      var d := order[0];
      match MeasureLabel(canvas, d)
      case None =>
      case Some(size) =>
        var o := Place(m, d, size, existing, placed);
        ResolveFails(m, canvas, order[1..], existing, placed + [RectOf(m, LabelBox(d, size), o)], results[d.id := o]);
    }
  }

  /** A successful run has an entry for exactly the ids met so far and in
      `order`. */
  lemma {:induction false} ResolveKeys(m: MathLib, canvas: Canvas, order: seq<LabelDescriptor>, existing: map<string, Offset>,
                                       placed: seq<seq<Point>>, results: map<string, Offset>)
    ensures Resolve(m, canvas, order, existing, placed, results).Some? ==>
              Resolve(m, canvas, order, existing, placed, results).value.Keys == results.Keys + Ids(order)
    decreases |order|
  {
    if |order| > 0 {
      assert order == [order[0]] + order[1..];
      assert Ids(order) == {order[0].id} + Ids(order[1..]);
      var d := order[0];
      match MeasureLabel(canvas, d)
      case None =>
      case Some(size) =>
        var o := Place(m, d, size, existing, placed);
        ResolveKeys(m, canvas, order[1..], existing, placed + [RectOf(m, LabelBox(d, size), o)], results[d.id := o]);
    }
  }

  /** A successful run keeps every stored offset and gives every floating
      label one of the candidates of a descriptor with its id. */
  lemma {:induction false} ResolveKeepsInvariants(m: MathLib, canvas: Canvas, order: seq<LabelDescriptor>, existing: map<string, Offset>,
                                                  placed: seq<seq<Point>>, results: map<string, Offset>, ds: seq<LabelDescriptor>)
    requires forall d :: d in order ==> d in ds
    requires Pinned(results, existing) && FromCandidates(m, results, existing, ds)
    ensures Resolve(m, canvas, order, existing, placed, results).Some? ==>
              && Pinned(Resolve(m, canvas, order, existing, placed, results).value, existing)
              && FromCandidates(m, Resolve(m, canvas, order, existing, placed, results).value, existing, ds)
    decreases |order|
  {
    if |order| > 0 {
      var d := order[0];
      assert d in order;
      assert forall e :: e in order[1..] ==> e in order;
      match MeasureLabel(canvas, d)
      case None =>
      case Some(size) =>
        var o := Place(m, d, size, existing, placed);
        PlaceLaws(m, d, size, existing, placed);
        var results' := results[d.id := o];
        assert Pinned(results', existing);
        assert FromCandidates(m, results', existing, ds);
        ResolveKeepsInvariants(m, canvas, order[1..], existing, placed + [RectOf(m, LabelBox(d, size), o)], results', ds);
    }
  }

  /** What a whole run promises: it fails exactly when some measurement
      throws, and otherwise has one entry per descriptor id, keeps every
      stored offset and gives every other label one of its candidates. */
  lemma ResolveLaws(m: MathLib, canvas: Canvas, descriptors: seq<LabelDescriptor>, existing: map<string, Offset>)
    ensures var r := Resolve(m, canvas, SortByOrder(descriptors), existing, [], map[]);
            && (r.None? <==> exists d :: d in descriptors && MeasureLabel(canvas, d).None?)
            && (r.Some? ==> r.value.Keys == Ids(descriptors))
            && (r.Some? ==> Pinned(r.value, existing))
            && (r.Some? ==> FromCandidates(m, r.value, existing, descriptors))
  {
    var byOrder := SortByOrder(descriptors);
    SortByOrderLaws(descriptors);
    forall d ensures d in byOrder <==> d in descriptors {
      assert d in byOrder <==> d in multiset(byOrder);
    }
    ResolveFails(m, canvas, byOrder, existing, [], map[]);
    ResolveKeys(m, canvas, byOrder, existing, [], map[]);
    ResolveKeepsInvariants(m, canvas, byOrder, existing, [], map[], descriptors);
    assert Ids(byOrder) == Ids(descriptors);
  }

  /** `resolveCollisions`; None stands for the exception a failing
      measurement raises. */
  method ResolveCollisions(m: MathLib, canvas: Canvas, descriptors: seq<LabelDescriptor>, existing: map<string, Offset>)
    returns (r: Option<map<string, Offset>>)
    ensures r == Resolve(m, canvas, SortByOrder(descriptors), existing, [], map[])
    ensures r.None? <==> exists d :: d in descriptors && MeasureLabel(canvas, d).None?
    ensures r.Some? ==> r.value.Keys == Ids(descriptors)
    ensures r.Some? ==> Pinned(r.value, existing)
    ensures r.Some? ==> FromCandidates(m, r.value, existing, descriptors)
  {
    ResolveLaws(m, canvas, descriptors, existing);
    var byOrder := SortByOrder(descriptors);
    var placed: seq<seq<Point>> := [];
    var results: map<string, Offset> := map[];
    var i := 0;
    while i < |byOrder|
      invariant 0 <= i <= |byOrder|
      invariant Resolve(m, canvas, byOrder, existing, [], map[]) == Resolve(m, canvas, byOrder[i..], existing, placed, results)
    {
      var desc := byOrder[i];
      assert byOrder[i..][0] == desc && byOrder[i..][1..] == byOrder[i + 1..];
      var fontSize := FontSize(desc);
      var measured := MeasureTextWidth(canvas, desc.text, fontSize);
      if measured.None? {
        return None;
      }
      var b := LabelBox(desc, measured.value);
      var preferred := PreferredOf(desc);
      if desc.id in existing {
        var poly := RectOf(m, b, existing[desc.id]);
        placed := placed + [poly];
        results := results[desc.id := existing[desc.id]];
      } else {
        var candidates := BuildCandidates(m, desc.rotation, preferred);
        var chosen, poly := ChooseOffset(m, b, candidates, preferred, placed);
        placed := placed + [poly];
        results := results[desc.id := chosen];
      }
      i := i + 1;
    }
    r := Some(results);
  }
}
