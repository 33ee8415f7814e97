/** The label descriptors the polyline layer builds for each finished line
    (one per segment, one per inner vertex) and the offsets it obtains from
    the collision resolver, line by line. */
module PolylineLabels {
  import opened Types
  import opened HostMath
  import GeometryUtils
  import opened LabelCollision

  /** The fixed shift of every label anchor from its geometric position. */
  const LabelXOffset: real := 6.0
  const LabelYOffset: real := 22.0

  /** The key functions and the number formatting the layer receives:
      `getLabelKey(line, segment)`, `getAngleLabelKey(line, vertex)` and
      `toFixed(1)`. */
  datatype Naming = Naming(labelKey: (nat, nat) -> string, angleLabelKey: (nat, nat) -> string, fixed1: real -> string)

  // ---------------------------------------------------------------------
  // Segment rotation

  /** The direction of p1->p2 in degrees, turned by half a turn when it
      points to the left so that the text reads upright. */
  function SegmentRotation(m: MathLib, p1: Point, p2: Point): real
    requires 0.0 < m.pi
  {
    var deg := GeometryUtils.RadToDeg(m, m.atan2(p2.y - p1.y, p2.x - p1.x));
    if deg > 90.0 || deg < -90.0 then deg + 180.0 else deg
  }

  /** The rotation is the direction itself or the direction plus 180, and
      its direction modulo a full turn lies in [-90, 90]: it is in [-90, 90]
      or in (270, 360]. */
  lemma SegmentRotationUpright(m: MathLib, p1: Point, p2: Point)
    requires Lawful(m)
    ensures var deg := GeometryUtils.RadToDeg(m, m.atan2(p2.y - p1.y, p2.x - p1.x));
            var r := SegmentRotation(m, p1, p2);
            && (r == deg || r == deg + 180.0)
            && (-90.0 <= r <= 90.0 || 270.0 < r <= 360.0)
            && (-90.0 <= deg <= 90.0 ==> r == deg)
  {
    Atan2InRange(m, p2.y - p1.y, p2.x - p1.x);
    GeometryUtils.RadToDegHalfTurn(m, m.atan2(p2.y - p1.y, p2.x - p1.x));
  }

  // ---------------------------------------------------------------------
  // The displayed angle

  /** Truncation toward zero, as JavaScript's `%` uses it. */
  function Trunc(x: real): int
  {
    if x >= 0.0 then x.Floor else -((-x).Floor)
  }

  /** JavaScript's `a % 360`: the remainder takes the sign of a. */
  function Rem360(a: real): real
  {
    a - 360.0 * (Trunc(a / 360.0) as real)
  }

  /** The remainder lies strictly between -360 and 360, is not negative for
      a non-negative a, differs from a by whole turns, and is a itself when a
      is already inside (-360, 360). */
  lemma Rem360Laws(a: real)
    ensures -360.0 < Rem360(a) < 360.0
    ensures 0.0 <= a ==> 0.0 <= Rem360(a)
    ensures a - Rem360(a) == 360.0 * (Trunc(a / 360.0) as real)
    ensures -360.0 < a < 360.0 ==> Rem360(a) == a
  {
    var t := a / 360.0;
    if t >= 0.0 {
      assert t.Floor as real <= t < t.Floor as real + 1.0;
      if a < 360.0 {
        assert t < 1.0;
        assert t.Floor == 0;
      }
    } else {
      var f := (-t).Floor;
      assert f as real <= -t < f as real + 1.0;
      if -360.0 < a {
        assert -t < 1.0;
        assert f == 0;
      }
    }
  }

  /** k full turns, in degrees. */
  function WholeTurns(k: int): real
  {
    360.0 * (k as real)
  }

  /** `((s % 360) + 360) % 360`, in [0, 360). */
  function RawAngle(s: real): real
  {
    Rem360(Rem360(s) + 360.0)
  }

  /** The displayed angle: the raw angle folded into [0, 180]. */
  function DisplayAngle(s: real): real
  {
    var raw := RawAngle(s);
    if raw > 180.0 then 360.0 - raw else raw
  }

  /** The raw angle lies in [0, 360) and differs from s by whole turns; the
      displayed angle lies in [0, 180], and for s in [-180, 180] it is |s|. */
  lemma DisplayAngleLaws(s: real)
    ensures 0.0 <= RawAngle(s) < 360.0
    ensures exists k: int :: RawAngle(s) == s + WholeTurns(k)
    ensures 0.0 <= DisplayAngle(s) <= 180.0
    ensures -180.0 <= s <= 180.0 ==> DisplayAngle(s) == GeometryUtils.Abs(s)
  {
    Rem360Laws(s);
    var r1 := Rem360(s);
    Rem360Laws(r1 + 360.0);
    var k1 := Trunc(s / 360.0);
    var k2 := Trunc((r1 + 360.0) / 360.0);
    assert RawAngle(s) == s + WholeTurns(1 - k1 - k2);
  }

  // ---------------------------------------------------------------------
  // Descriptors

  /** The user offset stored under `key`, else (0, 0). */
  function StoredOr(offsets: map<string, Offset>, key: string): Offset
  {
    if key in offsets then offsets[key] else Offset(0.0, 0.0)
  }

  /** The descriptor of the segment from points[i-1] to points[i]. */
  function SegmentDescriptor(m: MathLib, nm: Naming, labelOffsets: map<string, Offset>, li: nat, points: seq<Point>, i: nat): LabelDescriptor
    requires 0.0 < m.pi && 1 <= i < |points|
  {
    var p1 := points[i - 1];
    var p2 := points[i];
    var key := nm.labelKey(li, i);
    LabelDescriptor(
      key, SegmentLabel,
      Point((p1.x + p2.x) / 2.0 + LabelXOffset, (p1.y + p2.y) / 2.0 - LabelYOffset),
      SegmentRotation(m, p1, p2),
      nm.fixed1(GeometryUtils.GetSegmentLength(m, p1, p2)) + " px",
      Some(12.0), Some(0.0), Some(StoredOr(labelOffsets, key)))
  }

  /** The signed angle at b from b->a to b->c, in degrees. */
  function SignedAngle(m: MathLib, a: Point, b: Point, c: Point): real
    requires 0.0 < m.pi
  {
    (m.atan2(c.y - b.y, c.x - b.x) - m.atan2(a.y - b.y, a.x - b.x)) * 180.0 / m.pi
  }

  /** The descriptor of the angle at points[i-1], between points[i-2] and
      points[i]. */
  function AngleDescriptor(m: MathLib, nm: Naming, angleLabelOffsets: map<string, Offset>, li: nat, points: seq<Point>, i: nat): LabelDescriptor
    requires 0.0 < m.pi && 2 <= i < |points|
  {
    var a := points[i - 2];
    var b := points[i - 1];
    var c := points[i];
    var key := nm.angleLabelKey(li, i - 1);
    LabelDescriptor(
      key, AngleLabel,
      Point(b.x + LabelXOffset + 18.0, b.y - LabelYOffset - 18.0),
      0.0,
      nm.fixed1(DisplayAngle(SignedAngle(m, a, b, c))) + "°",
      Some(13.0), Some(10.0), Some(StoredOr(angleLabelOffsets, key)))
  }

  function SegmentDescriptors(m: MathLib, nm: Naming, labelOffsets: map<string, Offset>, li: nat, points: seq<Point>): seq<LabelDescriptor>
    requires 0.0 < m.pi
  {
    if |points| < 1 then []
    else seq(|points| - 1, k requires 0 <= k < |points| - 1 => SegmentDescriptor(m, nm, labelOffsets, li, points, k + 1))
  }

  function AngleDescriptors(m: MathLib, nm: Naming, angleLabelOffsets: map<string, Offset>, li: nat, points: seq<Point>): seq<LabelDescriptor>
    requires 0.0 < m.pi
  {
    if |points| < 2 then []
    else seq(|points| - 2, k requires 0 <= k < |points| - 2 => AngleDescriptor(m, nm, angleLabelOffsets, li, points, k + 2))
  }

  /** `max(0, n)`. */
  function Clip(n: int): nat
  {
    if n < 0 then 0 else n
  }

  /** The descriptor list of one line: n-1 segment descriptors followed by
      max(0, n-2) angle descriptors.  Segment label i has the key of (line,
      i), font 12, priority 0 and the stored segment offset or (0, 0); the
      angle label at vertex v has the key of (line, v), font 13, priority 10,
      rotation 0 and the stored angle offset or (0, 0). */
  lemma DescriptorLaws(m: MathLib, nm: Naming, labelOffsets: map<string, Offset>, angleLabelOffsets: map<string, Offset>,
                       li: nat, points: seq<Point>)
    requires 0.0 < m.pi
    ensures var segs := SegmentDescriptors(m, nm, labelOffsets, li, points);
            && |segs| == Clip(|points| - 1)
            && forall k :: 0 <= k < |segs| ==>
                 && segs[k].kind == SegmentLabel && segs[k].id == nm.labelKey(li, k + 1)
                 && FontSize(segs[k]) == 12.0 && Priority(segs[k]) == 0.0
                 && PreferredOf(segs[k]) == StoredOr(labelOffsets, nm.labelKey(li, k + 1))
                 && segs[k].rotation == SegmentRotation(m, points[k], points[k + 1])
    ensures var angs := AngleDescriptors(m, nm, angleLabelOffsets, li, points);
            && |angs| == Clip(|points| - 2)
            && forall k :: 0 <= k < |angs| ==>
                 && angs[k].kind == AngleLabel && angs[k].id == nm.angleLabelKey(li, k + 1)
                 && FontSize(angs[k]) == 13.0 && Priority(angs[k]) == 10.0 && angs[k].rotation == 0.0
                 && PreferredOf(angs[k]) == StoredOr(angleLabelOffsets, nm.angleLabelKey(li, k + 1))
                 && angs[k].anchor == Point(points[k + 1].x + LabelXOffset + 18.0, points[k + 1].y - LabelYOffset - 18.0)
  {
  }

  /** The descriptors of one line: the segment loop, then the angle loop,
      both pushing onto the same list. */
  method BuildDescriptors(m: MathLib, nm: Naming, labelOffsets: map<string, Offset>, angleLabelOffsets: map<string, Offset>,
                          li: nat, points: seq<Point>) returns (descriptors: seq<LabelDescriptor>)
    requires 0.0 < m.pi
    ensures descriptors == SegmentDescriptors(m, nm, labelOffsets, li, points) + AngleDescriptors(m, nm, angleLabelOffsets, li, points)
  {
    descriptors := PushSegmentDescriptors(m, nm, labelOffsets, li, points, []);
    descriptors := PushAngleDescriptors(m, nm, angleLabelOffsets, li, points, descriptors);
  }

  /** The segment loop: one descriptor per segment. */
  method PushSegmentDescriptors(m: MathLib, nm: Naming, labelOffsets: map<string, Offset>, li: nat, points: seq<Point>,
                                before: seq<LabelDescriptor>) returns (descriptors: seq<LabelDescriptor>)
    requires 0.0 < m.pi
    ensures descriptors == before + SegmentDescriptors(m, nm, labelOffsets, li, points)
  {
    ghost var segs := SegmentDescriptors(m, nm, labelOffsets, li, points);
    descriptors := before;
    var i := 1;
    while i < |points|
      invariant 1 <= i <= Clip(|points| - 1) + 1
      invariant descriptors == before + segs[..i - 1]
    {
      var p1 := points[i - 1];
      var p2 := points[i];
      var segLen := GeometryUtils.GetSegmentLength(m, p1, p2);
      var labelKey := nm.labelKey(li, i);
      var angleDeg := GeometryUtils.RadToDeg(m, m.atan2(p2.y - p1.y, p2.x - p1.x));
      if angleDeg > 90.0 || angleDeg < -90.0 {
        angleDeg := angleDeg + 180.0;
      }
      var d := LabelDescriptor(
        labelKey, SegmentLabel,
        Point((p1.x + p2.x) / 2.0 + LabelXOffset, (p1.y + p2.y) / 2.0 - LabelYOffset),
        angleDeg, nm.fixed1(segLen) + " px",
        Some(12.0), Some(0.0), Some(StoredOr(labelOffsets, labelKey)));
      assert d == segs[i - 1];
      assert segs[..i] == segs[..i - 1] + [d];
      descriptors := descriptors + [d];
      i := i + 1;
    }
    assert segs[..Clip(|points| - 1)] == segs;
  }

  /** The angle loop: one descriptor per inner vertex. */
  method PushAngleDescriptors(m: MathLib, nm: Naming, angleLabelOffsets: map<string, Offset>, li: nat, points: seq<Point>,
                              before: seq<LabelDescriptor>) returns (descriptors: seq<LabelDescriptor>)
    requires 0.0 < m.pi
    ensures descriptors == before + AngleDescriptors(m, nm, angleLabelOffsets, li, points)
  {
    ghost var angs := AngleDescriptors(m, nm, angleLabelOffsets, li, points);
    descriptors := before;
    var i := 2;
    while i < |points|
      invariant 2 <= i <= Clip(|points| - 2) + 2
      invariant descriptors == before + angs[..i - 2]
    {
      var a := points[i - 2];
      var b := points[i - 1];
      var c := points[i];
      var signedAngle := (m.atan2(c.y - b.y, c.x - b.x) - m.atan2(a.y - b.y, a.x - b.x)) * 180.0 / m.pi;
      var raw := Rem360(Rem360(signedAngle) + 360.0);
      var displayAngle := if raw > 180.0 then 360.0 - raw else raw;
      var angleLabelKey := nm.angleLabelKey(li, i - 1);
      var d := LabelDescriptor(
        angleLabelKey, AngleLabel,
        Point(b.x + LabelXOffset + 18.0, b.y - LabelYOffset - 18.0),
        0.0, nm.fixed1(displayAngle) + "°",
        Some(13.0), Some(10.0), Some(StoredOr(angleLabelOffsets, angleLabelKey)));
      assert d == angs[i - 2];
      assert angs[..i - 1] == angs[..i - 2] + [d];
      descriptors := descriptors + [d];
      i := i + 1;
    }
    assert angs[..Clip(|points| - 2)] == angs;
  }

  // ---------------------------------------------------------------------
  // Offsets per line

  /** The offsets of one line: the resolver's result over the line's
      descriptors with the two stored-offset maps merged (angle entries win),
      or no offsets at all when the resolver throws. */
  ghost function LineOffsets(m: MathLib, canvas: Canvas, nm: Naming, labelOffsets: map<string, Offset>,
                             angleLabelOffsets: map<string, Offset>, li: nat, points: seq<Point>): map<string, Offset>
    requires 0.0 < m.pi
  {
    var ds := SegmentDescriptors(m, nm, labelOffsets, li, points) + AngleDescriptors(m, nm, angleLabelOffsets, li, points);
    match Resolve(m, canvas, SortByOrder(ds), labelOffsets + angleLabelOffsets, [], map[])
    case None => map[]
    case Some(r) => r
  }

  /** A line's offsets are empty when some measurement throws; otherwise
      they have one entry per label key, keep every stored offset (an angle
      offset over a segment offset under the same key) and give every other
      label one of its candidates. */
  lemma LineOffsetsLaws(m: MathLib, canvas: Canvas, nm: Naming, labelOffsets: map<string, Offset>,
                        angleLabelOffsets: map<string, Offset>, li: nat, points: seq<Point>)
    requires 0.0 < m.pi
    ensures var ds := SegmentDescriptors(m, nm, labelOffsets, li, points) + AngleDescriptors(m, nm, angleLabelOffsets, li, points);
            var r := LineOffsets(m, canvas, nm, labelOffsets, angleLabelOffsets, li, points);
            && ((exists d :: d in ds && MeasureLabel(canvas, d).None?) ==> r == map[])
            && (!(exists d :: d in ds && MeasureLabel(canvas, d).None?) ==>
                  && r.Keys == Ids(ds)
                  && (forall k :: k in r && k in angleLabelOffsets ==> r[k] == angleLabelOffsets[k])
                  && (forall k :: k in r && k in labelOffsets && k !in angleLabelOffsets ==> r[k] == labelOffsets[k])
                  && FromCandidates(m, r, labelOffsets + angleLabelOffsets, ds))
  {
    var ds := SegmentDescriptors(m, nm, labelOffsets, li, points) + AngleDescriptors(m, nm, angleLabelOffsets, li, points);
    ResolveLaws(m, canvas, ds, labelOffsets + angleLabelOffsets);
  }

  /** The body of the per-line loop: build the descriptors, merge the
      stored offsets, resolve, and fall back to no offsets on an exception. */
  method ResolveLine(m: MathLib, canvas: Canvas, nm: Naming, labelOffsets: map<string, Offset>,
                     angleLabelOffsets: map<string, Offset>, li: nat, points: seq<Point>) returns (offsets: map<string, Offset>)
    requires 0.0 < m.pi
    ensures offsets == LineOffsets(m, canvas, nm, labelOffsets, angleLabelOffsets, li, points)
  {
    var descriptors := BuildDescriptors(m, nm, labelOffsets, angleLabelOffsets, li, points);
    var mergedExisting := labelOffsets + angleLabelOffsets;
    var resolved := ResolveCollisions(m, canvas, descriptors, mergedExisting);
    offsets := if resolved.Some? then resolved.value else map[];
  }

  /** The offsets of every line, keyed by line index. */
  ghost function OffsetsPerLine(m: MathLib, canvas: Canvas, nm: Naming, labelOffsets: map<string, Offset>,
                                angleLabelOffsets: map<string, Offset>, lines: seq<Line>): map<nat, map<string, Offset>>
    requires 0.0 < m.pi
    decreases |lines|
  {
    if |lines| == 0 then map[]
    else
      var li := |lines| - 1;
      OffsetsPerLine(m, canvas, nm, labelOffsets, angleLabelOffsets, lines[..li])[li := LineOffsets(m, canvas, nm, labelOffsets, angleLabelOffsets, li, lines[li].points)]
  }

  /** Line li has an entry exactly when it exists, and the entry is that
      line's offsets. */
  lemma {:induction false} OffsetsPerLineAt(m: MathLib, canvas: Canvas, nm: Naming, labelOffsets: map<string, Offset>,
                                            angleLabelOffsets: map<string, Offset>, lines: seq<Line>, li: nat)
    requires 0.0 < m.pi
    ensures li in OffsetsPerLine(m, canvas, nm, labelOffsets, angleLabelOffsets, lines) <==> li < |lines|
    ensures li < |lines| ==>
              OffsetsPerLine(m, canvas, nm, labelOffsets, angleLabelOffsets, lines)[li]
              == LineOffsets(m, canvas, nm, labelOffsets, angleLabelOffsets, li, lines[li].points)
    decreases |lines|
  {
    if |lines| > 0 && li != |lines| - 1 {
      var init := lines[..|lines| - 1];
      OffsetsPerLineAt(m, canvas, nm, labelOffsets, angleLabelOffsets, init, li);
      if li < |init| {
        assert init[li] == lines[li];
      }
    }
  }

  /** One more line adds exactly that line's entry. */
  lemma OffsetsPerLineStep(m: MathLib, canvas: Canvas, nm: Naming, labelOffsets: map<string, Offset>,
                           angleLabelOffsets: map<string, Offset>, lines: seq<Line>, li: nat)
    requires 0.0 < m.pi && li < |lines|
    ensures OffsetsPerLine(m, canvas, nm, labelOffsets, angleLabelOffsets, lines[..li + 1])
            == OffsetsPerLine(m, canvas, nm, labelOffsets, angleLabelOffsets, lines[..li])[li := LineOffsets(m, canvas, nm, labelOffsets, angleLabelOffsets, li, lines[li].points)]
  {
    assert lines[..li + 1][..li] == lines[..li] && lines[..li + 1][li] == lines[li];
  }

  /** `resolvedOffsetsPerLine`: one entry per line index, holding that
      line's offsets. */
  method ResolvedOffsetsPerLine(m: MathLib, canvas: Canvas, nm: Naming, lines: seq<Line>,
                                labelOffsets: map<string, Offset>, angleLabelOffsets: map<string, Offset>)
    returns (res: map<nat, map<string, Offset>>)
    requires 0.0 < m.pi
    ensures res == OffsetsPerLine(m, canvas, nm, labelOffsets, angleLabelOffsets, lines)
  {
    res := map[];
    var li := 0;
    while li < |lines|
      invariant 0 <= li <= |lines|
      invariant res == OffsetsPerLine(m, canvas, nm, labelOffsets, angleLabelOffsets, lines[..li])
    {
      var offsets := ResolveLine(m, canvas, nm, labelOffsets, angleLabelOffsets, li, lines[li].points);
      OffsetsPerLineStep(m, canvas, nm, labelOffsets, angleLabelOffsets, lines, li);
      res := res[li := offsets];
      li := li + 1;
    }
    assert lines[..li] == lines;
  }
}
