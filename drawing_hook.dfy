/** The drawing hook: the polyline being drawn point by point, the drawing
    mode flag, and the handlers that compute the new lines of the active
    drawing for clicks, point drags and label drags.  A handler's result is
    the line list it passes to `updateDrawingLines`, or None when it does
    not call it. */
module DrawingHook {
  import opened Types
  import DrawingsStore

  /** `activeDrawingId ? drawings[activeDrawingId] : null`: an empty or
      missing id, or an id with no drawing, gives no active drawing. */
  function ActiveDrawing(r: DrawingsStore.Registry): (d: Option<DrawingsStore.Drawing>)
    ensures d.Some? <==> r.activeDrawingId.Some? && r.activeDrawingId.value != "" && r.activeDrawingId.value in r.drawings
    ensures d.Some? ==> d.value == r.drawings[r.activeDrawingId.value]
    ensures DrawingsStore.Valid(r) ==> (d.Some? <==> r.activeDrawingId.value != "")
  {
    if r.activeDrawingId.Some? && r.activeDrawingId.value != "" && r.activeDrawingId.value in r.drawings
    then Some(r.drawings[r.activeDrawingId.value])
    else None
  }

  /** Whether a handler may change the active drawing. */
  predicate Editable(active: Option<DrawingsStore.Drawing>)
  {
    active.Some? && !active.value.locked
  }

  /** The lines after a click that brought the polyline to `poly`: with
      two or more points the polyline, as a fresh line, is pushed onto an
      empty drawing or replaces the drawing's last line. */
  function ClickedLines(lines: seq<Line>, poly: seq<Point>, newId: string, color: string): Option<seq<Line>>
  {
    if |poly| < 2 then None
    else if |lines| == 0 then Some([PlainLine(newId, poly, color)])
    else Some(lines[|lines| - 1 := PlainLine(newId, poly, color)])
  }

  /** A click with two or more points leaves one line per earlier line (at
      least one), keeps all lines but the last, and makes the last one the
      polyline. */
  lemma ClickedLinesLaws(lines: seq<Line>, poly: seq<Point>, newId: string, color: string)
    ensures ClickedLines(lines, poly, newId, color).None? <==> |poly| < 2
    ensures ClickedLines(lines, poly, newId, color).Some? ==>
      var r := ClickedLines(lines, poly, newId, color).value;
      && |r| == (if |lines| == 0 then 1 else |lines|)
      && r[..|r| - 1] == lines[..|r| - 1]
      && r[|r| - 1] == PlainLine(newId, poly, color)
  {
    if |poly| >= 2 && |lines| > 0 {
      var r := ClickedLines(lines, poly, newId, color).value;
      assert r[..|r| - 1] == lines[..|r| - 1];
    }
  }

  /** Every further click of the same stroke rewrites the same slot, so a
      stroke occupies exactly one line: clicking twice is the same as the
      second click alone. */
  lemma ClicksReplaceSameLine(lines: seq<Line>, p1: seq<Point>, p2: seq<Point>, id1: string, id2: string, color: string)
    requires |p1| >= 2 && |p2| >= 2
    ensures ClickedLines(ClickedLines(lines, p1, id1, color).value, p2, id2, color) == ClickedLines(lines, p2, id2, color)
  {
    if |lines| > 0 {
      var l2 := PlainLine(id2, p2, color);
      assert lines[|lines| - 1 := PlainLine(id1, p1, color)][|lines| - 1 := l2] == lines[|lines| - 1 := l2];
    } else {
      assert [PlainLine(id1, p1, color)][0 := PlainLine(id2, p2, color)] == [PlainLine(id2, p2, color)];
    }
  }

  /** `handleFinishedLinePointDrag`: point ptIdx of line lineIdx moves to
      `pos`.  An index one past the end appends the point; a negative index
      writes a non-index property, so the points stay as they are, but the
      lines are still handed over (a history snapshot is recorded). */
  method HandleFinishedLinePointDrag(active: Option<DrawingsStore.Drawing>, lineIdx: int, ptIdx: int, pos: Point)
      returns (update: Option<seq<Line>>)
    ensures update.None? <==>
      (!Editable(active) || !(0 <= lineIdx < |active.value.lines|)
       || ptIdx > |active.value.lines[lineIdx].points|)
    ensures update.Some? ==>
      var lines := active.value.lines;
      var before := lines[lineIdx].points;
      && |update.value| == |lines|
      && (forall k :: 0 <= k < |lines| && k != lineIdx ==> update.value[k] == lines[k])
      && var after := update.value[lineIdx].points;
      && update.value[lineIdx] == lines[lineIdx].(points := after)
      && (ptIdx < 0 ==> after == before)
      && (0 <= ptIdx < |before| ==> after == before[ptIdx := pos])
      && (ptIdx == |before| ==> after == before + [pos])
  {
    if !Editable(active) {
      return None;
    }
    var newLines := active.value.lines;
    if !(0 <= lineIdx < |newLines|) || ptIdx > |newLines[lineIdx].points| {
      return None;
    }
    var newPoints := newLines[lineIdx].points;
    if ptIdx == |newPoints| {
      newPoints := newPoints + [pos];
    } else if 0 <= ptIdx {
      newPoints := newPoints[ptIdx := pos];
    }
    newLines := newLines[lineIdx := newLines[lineIdx].(points := newPoints)];
    update := Some(newLines);
  }

  /** The padding loop of `handleLabelDragMove`: (0, 0) entries are pushed
      until the list has an entry at segmentIdx. */
  method PadLabelPositions(positions: seq<Point>, segmentIdx: int) returns (padded: seq<Point>)
    ensures |padded| == if segmentIdx < |positions| then |positions| else segmentIdx + 1
    ensures padded[..|positions|] == positions
    ensures forall i :: |positions| <= i < |padded| ==> padded[i] == Point(0.0, 0.0)
  {
    padded := positions;
    while |padded| <= segmentIdx
      invariant |positions| <= |padded|
      invariant |padded| <= if segmentIdx < |positions| then |positions| else segmentIdx + 1
      invariant padded[..|positions|] == positions
      invariant forall i :: |positions| <= i < |padded| ==> padded[i] == Point(0.0, 0.0)
      decreases segmentIdx + 1 - |padded|
    {
      padded := padded + [Point(0.0, 0.0)];
    }
  }

  /** `handleLabelDragMove`: the dragged segment label of line lineIdx gets
      the position `pos`.  A negative index only materialises the list. */
  method HandleLabelDragMove(active: Option<DrawingsStore.Drawing>, lineIdx: int, segmentIdx: int, pos: Point)
      returns (update: Option<seq<Line>>)
    ensures update.None? <==> (!Editable(active) || !(0 <= lineIdx < |active.value.lines|))
    ensures update.Some? ==>
      var lines := active.value.lines;
      var line := lines[lineIdx];
      var before := if line.labelPositions.Some? then line.labelPositions.value else [];
      && |update.value| == |lines|
      && (forall k :: 0 <= k < |lines| && k != lineIdx ==> update.value[k] == lines[k])
      && update.value[lineIdx] == line.(labelPositions := update.value[lineIdx].labelPositions)
      && update.value[lineIdx].labelPositions.Some?
      && var after := update.value[lineIdx].labelPositions.value;
         && (segmentIdx < 0 ==> after == before)
         && (0 <= segmentIdx ==>
               && |after| == (if segmentIdx < |before| then |before| else segmentIdx + 1)
               && after[segmentIdx] == pos
               && (forall i :: 0 <= i < |before| && i != segmentIdx ==> after[i] == before[i])
               && (forall i :: |before| <= i < |after| && i != segmentIdx ==> after[i] == Point(0.0, 0.0)))
  {
    if !Editable(active) {
      return None;
    }
    var newLines := active.value.lines;
    if !(0 <= lineIdx < |newLines|) {
      return None;
    }
    var line := newLines[lineIdx];
    var positions := if line.labelPositions.Some? then line.labelPositions.value else [];
    positions := PadLabelPositions(positions, segmentIdx);
    if 0 <= segmentIdx {
      positions := positions[segmentIdx := pos];
    }
    newLines := newLines[lineIdx := line.(labelPositions := Some(positions))];
    update := Some(newLines);
  }

  /** The number of interior vertices of a line with n points. */
  function InteriorVertices(n: nat): nat
  {
    if n < 2 then 0 else n - 2
  }

  /** The resizing step of `handleAngleLabelDragMove`: a list of exactly n
      slots, holding the old entries where there were any and null
      elsewhere. */
  method ResizeAngleLabels(current: seq<Option<Point>>, n: nat) returns (resized: seq<Option<Point>>)
    ensures |resized| == n
    ensures forall i :: 0 <= i < n ==> resized[i] == if i < |current| then current[i] else None
  {
    if |current| == n {
      return current;
    }
    var newArray: seq<Option<Point>> := seq(n, _ => None);
    var limit := if |current| < n then |current| else n;
    var i := 0;
    while i < limit
      invariant 0 <= i <= limit
      invariant |newArray| == n
      invariant forall j :: 0 <= j < n ==> newArray[j] == if j < i then current[j] else None
    {
      newArray := newArray[i := current[i]];
      i := i + 1;
    }
    resized := newArray;
  }

  /** `handleAngleLabelDragMove`: the angle labels of line lineIdx become
      exactly one slot per interior vertex, and the dragged one, when its
      index is in range, gets `pos`. */
  method HandleAngleLabelDragMove(active: Option<DrawingsStore.Drawing>, lineIdx: int, vertexIdx: int, pos: Point)
      returns (update: Option<seq<Line>>)
    ensures update.None? <==> (!Editable(active) || !(0 <= lineIdx < |active.value.lines|))
    ensures update.Some? ==>
      var lines := active.value.lines;
      var line := lines[lineIdx];
      var before := if line.angleLabelPositions.Some? then line.angleLabelPositions.value else [];
      && |update.value| == |lines|
      && (forall k :: 0 <= k < |lines| && k != lineIdx ==> update.value[k] == lines[k])
      && update.value[lineIdx] == line.(angleLabelPositions := update.value[lineIdx].angleLabelPositions)
      && update.value[lineIdx].angleLabelPositions.Some?
      && var after := update.value[lineIdx].angleLabelPositions.value;
         && |after| == InteriorVertices(|line.points|)
         && forall i :: 0 <= i < |after| ==>
              after[i] == if i == vertexIdx then Some(pos) else if i < |before| then before[i] else None
  {
    if !Editable(active) {
      return None;
    }
    var newLines := active.value.lines;
    if !(0 <= lineIdx < |newLines|) {
      return None;
    }
    var line := newLines[lineIdx];
    var n := InteriorVertices(|line.points|);
    var labels: seq<Option<Point>> := if line.angleLabelPositions.Some? then line.angleLabelPositions.value else seq(n, _ => None);
    labels := ResizeAngleLabels(labels, n);
    if 0 <= vertexIdx < |labels| {
      labels := labels[vertexIdx := Some(pos)];
    }
    newLines := newLines[lineIdx := line.(angleLabelPositions := Some(labels))];
    update := Some(newLines);
  }

  /** The hook's own state: the polyline being drawn and the mode flag. */
  class DrawingSession {
    var polyPoints: seq<Point>
    var isDrawingMode: bool

    constructor()
      ensures polyPoints == [] && isDrawingMode
    {
      polyPoints := [];
      isDrawingMode := true;
    }

    /** `handleStageClick` with the click already transformed to canvas
        coordinates; `newId` is the clock-derived id and `color` the
        configured line colour. */
    method HandleStageClick(active: Option<DrawingsStore.Drawing>, newPoint: Point, newId: string, color: string)
        returns (update: Option<seq<Line>>)
      modifies this
      ensures isDrawingMode == old(isDrawingMode)
      ensures !Editable(active) || !old(isDrawingMode) ==> polyPoints == old(polyPoints) && update.None?
      ensures Editable(active) && old(isDrawingMode) ==>
        && polyPoints == old(polyPoints) + [newPoint]
        && update == ClickedLines(active.value.lines, polyPoints, newId, color)
    {
      if !Editable(active) || !isDrawingMode {
        return None;
      }
      var newPolyPoints := polyPoints + [newPoint];
      polyPoints := newPolyPoints;
      update := None;
      if |newPolyPoints| >= 2 {
        var newLine := PlainLine(newId, newPolyPoints, color);
        var newLines := active.value.lines;
        if |newLines| == 0 {
          newLines := newLines + [newLine];
          assert newLines == [newLine];
        } else {
          newLines := newLines[|newLines| - 1 := newLine];
        }
        update := Some(newLines);
      }
    }

    /** `handlePointDrag`: a point of the polyline being drawn moves; an
        index one past the end appends the point, and a negative index
        writes a non-index property, which leaves the points as they are. */
    method HandlePointDrag(active: Option<DrawingsStore.Drawing>, idx: int, pos: Point)
      modifies this
      ensures isDrawingMode == old(isDrawingMode)
      ensures Editable(active) && 0 <= idx < |old(polyPoints)| ==> polyPoints == old(polyPoints)[idx := pos]
      ensures Editable(active) && idx == |old(polyPoints)| ==> polyPoints == old(polyPoints) + [pos]
      ensures !(Editable(active) && 0 <= idx <= |old(polyPoints)|) ==> polyPoints == old(polyPoints)
    {
      if !Editable(active) || !(0 <= idx <= |polyPoints|) {
        return;
      }
      if idx == |polyPoints| {
        polyPoints := polyPoints + [pos];
      } else {
        polyPoints := polyPoints[idx := pos];
      }
    }

    /** `finishDrawing`: with two or more points in drawing mode, the
        polyline is dropped (its line is already stored) and drawing mode
        ends; otherwise nothing changes. */
    method FinishDrawing()
      modifies this
      ensures old(isDrawingMode) && |old(polyPoints)| >= 2 ==> polyPoints == [] && !isDrawingMode
      ensures !(old(isDrawingMode) && |old(polyPoints)| >= 2) ==>
        polyPoints == old(polyPoints) && isDrawingMode == old(isDrawingMode)
    {
      if isDrawingMode && |polyPoints| >= 2 {
        polyPoints := [];
        isDrawingMode := false;
      }
    }

    /** `clearDrawing`: with an active drawing, its lines are emptied, the
        polyline is dropped and drawing mode resumes (even on a locked
        drawing). */
    method ClearDrawing(active: Option<DrawingsStore.Drawing>) returns (update: Option<seq<Line>>)
      modifies this
      ensures active.None? ==> update.None? && polyPoints == old(polyPoints) && isDrawingMode == old(isDrawingMode)
      ensures active.Some? ==> update == Some([]) && polyPoints == [] && isDrawingMode
    {
      if active.None? {
        return None;
      }
      update := Some([]);
      polyPoints := [];
      isDrawingMode := true;
    }
  }
}
