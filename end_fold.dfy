/** The end-fold preview: a dashed chain of segments drawn from the first
    point of the first polyline, or the last point of the last polyline,
    following the segment edits of that end's fold. */
module EndFold {
  import opened HostMath
  import opened Types
  import GeometryUtils

  /** Which end of the drawing the fold belongs to. */
  datatype Which = First | Last

  /** The point the chain starts from and the neighbour that orients its
      first segment. */
  datatype Anchor = Anchor(point: Point, prev: Point)

  /** The values of a map with integer keys in ascending key order, as
      `Object.values` lists them, restricted to the keys below n. */
  function ValuesBelow(edits: map<nat, SegmentEdit>, n: nat): (r: seq<SegmentEdit>)
    ensures |r| <= n
    decreases n
  {
    if n == 0 then []
    else ValuesBelow(edits, n - 1) + (if n - 1 in edits then [edits[n - 1]] else [])
  }

  /** Every finite set of keys has a largest member. */
  lemma {:induction false} LargestKey(keys: set<nat>)
    requires keys != {}
    ensures exists k :: k in keys && forall j :: j in keys ==> j <= k
    decreases |keys|
  {
    var x :| x in keys;
    if keys != {x} {
      LargestKey(keys - {x});
      var k :| k in keys - {x} && forall j :: j in keys - {x} ==> j <= k;
      if x <= k {
        forall j | j in keys
          ensures j <= k
        {
          if j != x {
            assert j in keys - {x};
          }
        }
      } else {
        forall j | j in keys
          ensures j <= x
        {
          if j != x {
            assert j in keys - {x};
          }
        }
      }
    } else {
      assert forall j :: j in keys ==> j <= x;
    }
  }

  /** One more than the largest key (0 for an empty map). */
  function KeyBound(edits: map<nat, SegmentEdit>): (b: nat)
    ensures forall k :: k in edits ==> k < b
  {
    if edits.Keys == {} then 0
    else
      LargestKey(edits.Keys);
      var k :| k in edits.Keys && forall j :: j in edits.Keys ==> j <= k;
      k + 1
  }

  /** `Object.values(segmentEdits)`. */
  function ObjectValues(edits: map<nat, SegmentEdit>): seq<SegmentEdit>
  {
    ValuesBelow(edits, KeyBound(edits))
  }

  /** The keys are exactly 0 .. |edits|-1. */
  predicate Contiguous(edits: map<nat, SegmentEdit>)
  {
    && (forall k :: k in edits ==> k < |edits|)
    && (forall k: nat :: k < |edits| ==> k in edits)
  }

  /** With keys 0 .. n-1 the values come out indexed by their keys. */
  lemma {:induction false} ValuesBelowContiguous(edits: map<nat, SegmentEdit>, n: nat)
    requires forall k: nat :: k < n ==> k in edits
    ensures |ValuesBelow(edits, n)| == n
    ensures forall i :: 0 <= i < n ==> ValuesBelow(edits, n)[i] == edits[i]
    decreases n
  {
    if n > 0 {
      ValuesBelowContiguous(edits, n - 1);
    }
  }

  /** For the contiguous maps the fold dialog builds, `Object.values` lists
      the entry of key i at position i. */
  lemma ObjectValuesContiguous(edits: map<nat, SegmentEdit>)
    requires Contiguous(edits)
    ensures |ObjectValues(edits)| == |edits|
    ensures forall i :: 0 <= i < |edits| ==> ObjectValues(edits)[i] == edits[i]
  {
    var n := |edits|;
    if n == 0 {
      assert edits.Keys == {};
    } else {
      assert n - 1 in edits;
      assert forall j :: j in edits.Keys ==> j <= n - 1;
    }
    assert KeyBound(edits) == n;
    ValuesBelowContiguous(edits, n);
  }

  /** `lines.find(l => l.points.length > 1)`: the index of the first line
      with at least two points. */
  function FirstLong(lines: seq<Line>): (r: Option<nat>)
    ensures r.Some? ==> r.value < |lines| && |lines[r.value].points| > 1
                        && forall k :: 0 <= k < r.value ==> |lines[k].points| <= 1
    ensures r.None? <==> forall k :: 0 <= k < |lines| ==> |lines[k].points| <= 1
  {
    if |lines| == 0 then None
    else if |lines[0].points| > 1 then Some(0)
    else match FirstLong(lines[1..])
      case None => None
      case Some(k) => Some(k + 1)
  }

  /** `[...lines].reverse().find(...)`: the index of the last line with at
      least two points. */
  function LastLong(lines: seq<Line>): (r: Option<nat>)
    ensures r.Some? ==> r.value < |lines| && |lines[r.value].points| > 1
                        && forall k :: r.value < k < |lines| ==> |lines[k].points| <= 1
    ensures r.None? <==> forall k :: 0 <= k < |lines| ==> |lines[k].points| <= 1
  {
    if |lines| == 0 then None
    else if |lines[|lines| - 1].points| > 1 then Some(|lines| - 1)
    else LastLong(lines[..|lines| - 1])
  }

  /** The anchor and direction reference of the chosen end, when a line
      with at least two points exists. */
  function AnchorOf(lines: seq<Line>, which: Which): Option<Anchor>
  {
    match if which == First then FirstLong(lines) else LastLong(lines)
    case None => None
    case Some(k) =>
      var pts := lines[k].points;
      if which == First then Some(Anchor(pts[0], pts[1]))
      else Some(Anchor(pts[|pts| - 1], pts[|pts| - 2]))
  }

  /** One step of the chain loop: the first step is oriented by the
      anchor's neighbour, every later one by the current point itself. */
  function FoldStep(m: MathLib, prev: Point, i: nat, pt: Point, seg: SegmentEdit): Point
    requires 0.0 < m.pi
  {
    if i == 0 then GeometryUtils.GetNewPositionByAngleLength(m, prev, pt, seg.length, seg.angle)
    else GeometryUtils.GetNewPositionByAngleLength(m, pt, pt, seg.length, seg.angle)
  }

  /** The chain after the first n segments. */
  function ChainUpTo(m: MathLib, a: Anchor, segments: seq<SegmentEdit>, n: nat): (r: seq<Point>)
    requires 0.0 < m.pi && n <= |segments|
    ensures |r| == n + 1
    decreases n
  {
    if n == 0 then [a.point]
    else
      var c := ChainUpTo(m, a, segments, n - 1);
      c + [FoldStep(m, a.prev, n - 1, c[n - 1], segments[n - 1])]
  }

  /** The body of the chain loop. */
  method NextChainPoint(m: MathLib, prev: Point, i: nat, pt: Point, seg: SegmentEdit) returns (next: Point)
    requires 0.0 < m.pi
    ensures next == FoldStep(m, prev, i, pt, seg)
  {
    if i == 0 {
      next := GeometryUtils.GetNewPositionByAngleLength(m, prev, pt, seg.length, seg.angle);
    } else {
      var prev2 := pt;
      next := GeometryUtils.GetNewPositionByAngleLength(m, prev2, pt, seg.length, seg.angle);
    }
  }

  /** The loop over the segments, pushing each new point. */
  method FoldChain(m: MathLib, a: Anchor, segments: seq<SegmentEdit>) returns (points: seq<Point>)
    requires 0.0 < m.pi
    ensures points == ChainUpTo(m, a, segments, |segments|)
  {
    points := [a.point];
    var pt := a.point;
    var i := 0;
    while i < |segments|
      invariant 0 <= i <= |segments|
      invariant points == ChainUpTo(m, a, segments, i)
      invariant pt == points[i]
    {
      pt := NextChainPoint(m, a.prev, i, pt, segments[i]);
      points := points + [pt];
      i := i + 1;
    }
  }

  /** What the component draws: None when it renders nothing, otherwise the
      chain of points of the dashed polyline. */
  function EndFoldChain(m: MathLib, lines: seq<Line>, which: Which, info: Option<FoldEndpointInfo>): Option<seq<Point>>
    requires 0.0 < m.pi
  {
    if info.None? then None
    else match AnchorOf(lines, which)
      case None => None
      case Some(a) =>
        var segments := ObjectValues(info.value.segmentEdits);
        Some(ChainUpTo(m, a, segments, |segments|))
  }

  /** The component's computation. */
  method RenderEndFold(m: MathLib, lines: seq<Line>, which: Which, info: Option<FoldEndpointInfo>)
      returns (r: Option<seq<Point>>)
    requires 0.0 < m.pi
    ensures r == EndFoldChain(m, lines, which, info)
  {
    if info.None? {
      return None;
    }
    var anchor := AnchorOf(lines, which);
    if anchor.None? {
      return None;
    }
    var chain := FoldChain(m, anchor.value, ObjectValues(info.value.segmentEdits));
    r := Some(chain);
  }

  /** The dashed polyline is drawn when the chain has more than one point. */
  predicate Drawn(chain: Option<seq<Point>>)
  {
    chain.Some? && |chain.value| > 1
  }

  /** Nothing is produced unless fold info is set and some line has at
      least two points; the dashed line appears exactly when, in addition,
      there is at least one segment edit. */
  lemma EndFoldShown(m: MathLib, lines: seq<Line>, which: Which, info: Option<FoldEndpointInfo>)
    requires 0.0 < m.pi
    ensures EndFoldChain(m, lines, which, info).None? <==>
      (info.None? || forall k :: 0 <= k < |lines| ==> |lines[k].points| <= 1)
    ensures Drawn(EndFoldChain(m, lines, which, info)) <==>
      (EndFoldChain(m, lines, which, info).Some? && |ObjectValues(info.value.segmentEdits)| > 0)
  {
  }

  /** 'first' anchors at the first point of the first line with two or more
      points, oriented by its second point; 'last' at the final point of the
      last such line, oriented by the one before it. */
  lemma AnchorLaws(lines: seq<Line>, which: Which)
    requires AnchorOf(lines, which).Some?
    ensures var a := AnchorOf(lines, which).value;
      && (which == First ==>
            exists k :: (0 <= k < |lines| && |lines[k].points| > 1
                         && (forall j :: 0 <= j < k ==> |lines[j].points| <= 1)
                         && a == Anchor(lines[k].points[0], lines[k].points[1])))
      && (which == Last ==>
            exists k :: (0 <= k < |lines| && |lines[k].points| > 1
                         && (forall j :: k < j < |lines| ==> |lines[j].points| <= 1)
                         && a == Anchor(lines[k].points[|lines[k].points| - 1], lines[k].points[|lines[k].points| - 2])))
  {
    if which == First {
      var k := FirstLong(lines).value;
      assert AnchorOf(lines, which).value == Anchor(lines[k].points[0], lines[k].points[1]);
    } else {
      var k := LastLong(lines).value;
      assert |lines[k].points| > 1;
    }
  }

  /** The chain through its first n segments is a prefix of the whole
      chain. */
  lemma {:induction false} ChainPrefix(m: MathLib, a: Anchor, segments: seq<SegmentEdit>, n: nat, k: nat)
    requires 0.0 < m.pi && k <= n <= |segments|
    ensures ChainUpTo(m, a, segments, n)[k] == ChainUpTo(m, a, segments, k)[k]
    decreases n
  {
    if k < n {
      ChainPrefix(m, a, segments, n - 1, k);
    }
  }

  /** The chain starts at the anchor and has one point per segment more;
      each new point is `Length` away from the point before it; the first
      step is oriented by the anchor's neighbour, and every later step takes
      the absolute heading 180 - Angle (one turn added when negative). */
  lemma ChainLaws(m: MathLib, a: Anchor, segments: seq<SegmentEdit>)
    requires Lawful(m)
    ensures var c := ChainUpTo(m, a, segments, |segments|);
      && |c| == |segments| + 1
      && c[0] == a.point
      && (forall i :: 0 <= i < |segments| ==>
            GeometryUtils.GetSegmentLength(m, c[i], c[i + 1]) == GeometryUtils.Abs(segments[i].length))
      && (0 < |segments| ==>
            c[1] == GeometryUtils.GetNewPositionByAngleLength(m, a.prev, a.point, segments[0].length, segments[0].angle))
      && (forall i :: 0 < i < |segments| ==>
            c[i + 1] == GeometryUtils.GetPointFromAngleDistance(m, c[i].x, c[i].y,
                          AbsoluteHeading(segments[i].angle), segments[i].length))
  {
    var n := |segments|;
    var c := ChainUpTo(m, a, segments, n);
    ChainPrefix(m, a, segments, n, 0);
    forall i | 0 <= i < n
      ensures c[i + 1] == FoldStep(m, a.prev, i, c[i], segments[i])
    {
      ChainPrefix(m, a, segments, n, i);
      ChainPrefix(m, a, segments, n, i + 1);
      assert ChainUpTo(m, a, segments, i + 1)[i] == ChainUpTo(m, a, segments, i)[i];
    }
    forall i | 0 <= i < n
      ensures GeometryUtils.GetSegmentLength(m, c[i], c[i + 1]) == GeometryUtils.Abs(segments[i].length)
    {
      if i == 0 {
        GeometryUtils.NewPositionIsAtLength(m, a.prev, c[i], segments[i].length, segments[i].angle);
      } else {
        GeometryUtils.NewPositionIsAtLength(m, c[i], c[i], segments[i].length, segments[i].angle);
      }
    }
    forall i | 0 < i < n
      ensures c[i + 1] == GeometryUtils.GetPointFromAngleDistance(m, c[i].x, c[i].y,
                            AbsoluteHeading(segments[i].angle), segments[i].length)
    {
      GeometryUtils.DegenerateFoldHeading(m, c[i], segments[i].angle);
    }
  }

  /** The heading, in degrees, of every chain step after the first. */
  function AbsoluteHeading(angle: real): (h: real)
  {
    if 180.0 - angle < 0.0 then 540.0 - angle else 180.0 - angle
  }
}
