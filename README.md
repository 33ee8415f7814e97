# flashing-tool core, modelled in Dafny

flashing-tool is a browser editor for dimensioned polylines ("flashings"):
the user clicks points to draw a line, edits segment lengths and vertex
angles in dialogs, adds segments or folds at the ends, and sees length and
angle labels kept clear of each other. Every edit goes through a store with
undo and redo. A tapered copy of a drawing keeps its turn angles while its
segment lengths are edited.

This project models the geometry, the label placement, the stores and the
edit handlers of that program, and proves what they promise:

- **Geometry.** Distances, midpoints, headings, vertex angles, perpendicular
  offsets, angle-label positions and rigid rotation, over `real`
  coordinates. `cos`, `sin`, `sqrt`, `atan2` and `acos` come from a value
  `HostMath.MathLib`. The predicate `HostMath.Lawful` states the laws the
  proofs use: cos² + sin² = 1, sqrt of a square, the range of atan2, the
  polar identity and periodicity.
- **Label collision resolver.** Labels are sorted by priority. A label with
  a stored offset is pinned. Every other label takes the first clear offset
  from a 17-entry candidate list, checked by a bounding-box test and then a
  separating-axis test. The per-line descriptor builder of the polyline
  layer feeds it.
- **Stores.** These are classes whose methods replace their fields:
  - the drawings registry, with per-drawing undo and redo capped at 30
    snapshots and an undeletable "original" drawing;
  - the single-timeline drawing store;
  - the legacy line builder;
  - the tapered-diagram store.

  Each method is specified by a function on the store's state. The
  properties are lemmas about those functions.
- **Edit handlers.** The segment-length edit, add-segment, the angle-edit
  guards and its tail rotation, the end-fold chain, the fold dialog's
  edit map, and the drawing hook's click, drag and label handlers. A
  handler's result is the line list it hands to the store, or `None` when
  it hands over nothing.

## Model

| member | source | states |
|---|---|---|
| GeometryUtils.DegRadRoundTrip | src/utils/geometryUtils.ts:49-55 | degToRad and radToDeg are inverse to each other in both orders |
| GeometryUtils.RadToDegHalfTurn | src/utils/geometryUtils.ts:53-55 | an angle in (-pi, pi] converts to degrees in (-180, 180] |
| GeometryUtils.CalculateAngleIsShiftedTurn | src/utils/geometryUtils.ts:19-33 | both branches return 180 plus the signed turn in degrees; a zero turn gives exactly 180; the result lies in (0, 360] |
| GeometryUtils.CalculateAngleDegenerate | src/utils/geometryUtils.ts:19-33 | a zero-length first vector gives exactly 180 |
| GeometryUtils.PointFromAngleDistanceIsAtDistance | src/utils/geometryUtils.ts:35-40 | the point lies at squared distance distance² from (x, y), so at distance abs(distance) |
| GeometryUtils.FoldHeadingRange | src/utils/geometryUtils.ts:10-14 | the heading is 360 - (CalculateAngle + newAngle), shifted up by 360 exactly when that is negative; for an angle in [0, 360) it lies in [0, 360) |
| GeometryUtils.DegenerateFoldHeading | src/utils/geometryUtils.ts:5-17 | when the reference point is the vertex itself, the heading is 180 - newAngle, plus 360 when negative |
| GeometryUtils.NewPositionIsAtLength | src/utils/geometryUtils.ts:5-17 | whatever the angle inputs, the new point is abs(newLength) from the second point |
| GeometryUtils.SegmentLengthLaws | src/utils/geometryUtils.ts:42-46 | getSegmentLength is symmetric and never negative, its square is the squared distance, and it is zero exactly when the points coincide |
| GeometryUtils.AngleAtVertexRange | src/utils/geometryUtils.ts:58-69 | the signed vertex angle always lies in (-180, 180], and the normalisation steps never change it |
| GeometryUtils.RotateOneKeepsDistance | src/utils/geometryUtils.ts:75-82 | two rotated points keep their distance to each other |
| GeometryUtils.RotateOneFixesPivot | src/utils/geometryUtils.ts:75-82 | the pivot itself maps to the pivot |
| GeometryUtils.RotationIsRigid | src/utils/geometryUtils.ts:72-83 | same length; each point keeps its distance to the pivot; every pair keeps its distance; a point equal to the pivot maps to the pivot |
| Geometry.DistanceLaws | src/utils/geometry.ts:6-10 | calculateDistance is symmetric, non-negative, zero exactly for equal points, and equals getSegmentLength |
| Geometry.MidpointIsCentre | src/utils/geometry.ts:15-20 | the midpoint is equidistant from both ends, at a quarter of the squared length, and reflecting one end through it gives the other |
| Geometry.SegmentAngleRange | src/utils/geometry.ts:26-30 | the segment angle lies in (-180, 180], uses atan2(-dy, dx), and is 0 for a horizontal segment pointing right |
| Geometry.PerpendicularOffsetOfPoint | src/utils/geometry.ts:41 | a zero-length segment gives (0, 0) |
| Geometry.PerpendicularOffsetIsNormal | src/utils/geometry.ts:43-55 | otherwise the offset is orthogonal to p1->p2 and has squared length distance² |
| Geometry.PerpendicularOffsetZeroIff | src/utils/geometry.ts:36-56 | for a non-zero distance the offset is (0, 0) exactly when the points coincide |
| Geometry.ShouldRotateTextSectors | src/utils/geometry.ts:62-65 | shouldRotateText(a) holds iff abs(a) lies strictly within 45 degrees of a vertical direction, that is in (45, 135) modulo 180 |
| Geometry.ShouldRotateTextSymmetry | src/utils/geometry.ts:62-65 | the test is the same for a and -a, and for a and a + 180 |
| Geometry.Clamp | src/utils/geometry.ts:91 | the clamped cosine lies in [-1, 1] and is the input when that already does |
| Geometry.InteriorAngleDegenerate | src/utils/geometry.ts:88 | a zero-length arm gives 0 |
| Geometry.InteriorAngleRange | src/utils/geometry.ts:78-95 | the interior angle always lies in [0, 180] |
| Geometry.InteriorAngleSymmetric | src/utils/geometry.ts:78-95 | swapping the two outer points does not change the interior angle |
| Geometry.RoundIsNearest | src/utils/geometry.ts:136-139 | Math.round lands within half a unit of its argument |
| Geometry.AngleLabelRounding | src/utils/geometry.ts:101-140 | the label position is within half a pixel of its unrounded target in each coordinate |
| Geometry.AngleLabelDegenerate | src/utils/geometry.ts:111 | a zero-length arm puts the label at the rounded vertex |
| Geometry.AngleLabelOpposite | src/utils/geometry.ts:123-129 | opposite arms put the target abs(offset) from the vertex, perpendicular to the first arm |
| Geometry.AngleLabelOnBisector | src/utils/geometry.ts:118-139 | otherwise the target is abs(offset) from the vertex and makes equal dot products with both unit arms, so it lies on the bisector |
| LabelCollision.MeasureTextWidth | src/utils/labelCollision.ts:13-23 | the measurement fails exactly when the canvas throws |
| LabelCollision.MeasuredSize | src/utils/labelCollision.ts:13-23 | the height is 1.2 x fontSize; the width is the measured one when it is non-zero, else length x fontSize x 0.6, which is positive for a non-empty text |
| LabelCollision.RectCorners | src/utils/labelCollision.ts:25-38 | getRotatedRectPoints yields four corners |
| LabelCollision.RectangleShape | src/utils/labelCollision.ts:25-38 | the corners form a w by h rectangle whose centre is the anchor plus the rotated offset |
| LabelCollision.SeqMinLaws | src/utils/labelCollision.ts:52-61 | the running minimum is absent only for no values, and otherwise is at most every value |
| LabelCollision.SeqMaxLaws | src/utils/labelCollision.ts:52-61 | the running maximum is absent only for no values, and otherwise is at least every value |
| LabelCollision.EdgeAxisIsUnitNormal | src/utils/labelCollision.ts:46-51 | for an edge of non-zero length the axis is a unit vector orthogonal to the edge |
| LabelCollision.SeparatedIff | src/utils/labelCollision.ts:62-64 | an axis separates iff every projection of one polygon lies below every projection of the other |
| LabelCollision.ProjectionBounds | src/utils/labelCollision.ts:52-61 | the accumulated minimum and maximum are those of the projections |
| LabelCollision.PolygonsIntersect | src/utils/labelCollision.ts:41-68 | polygonsIntersect is false iff some edge normal of either polygon separates the projections |
| LabelCollision.DisjointRangesNeverHit | src/utils/labelCollision.ts:115-126 | rectangles whose x or y ranges are disjoint are never reported as a hit |
| LabelCollision.SharedPointHits | src/utils/labelCollision.ts:113-132 | rectangles sharing a corner always hit |
| LabelCollision.HitsPlaced | src/utils/labelCollision.ts:113-132 | the scan over the placed rectangles reports a hit iff the rectangle is not clear of all of them |
| LabelCollision.CandidateLaws | src/utils/labelCollision.ts:99-107 | 17 candidates: the preferred offset, then 8 moves of ±12, ±24, ±36 and ±48 across the text direction, then the same 8 moves along it |
| LabelCollision.BuildCandidates | src/utils/labelCollision.ts:99-107 | the pushes build exactly the candidate list |
| LabelCollision.FirstTrueLaws | src/utils/labelCollision.ts:111-138 | the scan stops at the first true flag, and every flag before it is false |
| LabelCollision.FirstClearLaws | src/utils/labelCollision.ts:109-144 | the choice is the first clear candidate when there is one, else the preferred offset |
| LabelCollision.ChooseOffset | src/utils/labelCollision.ts:109-144 | the loop with break returns that choice and its rectangle |
| LabelCollision.PrecedesLaws | src/utils/labelCollision.ts:73-78 | the comparator (priority descending, missing priority 0, then id ascending) is asymmetric and splits across a third label |
| LabelCollision.SortByOrderLaws | src/utils/labelCollision.ts:73-78 | the sorted list is a permutation of the descriptors and is in comparator order |
| LabelCollision.PlaceLaws | src/utils/labelCollision.ts:85-96 | a label with a stored offset gets exactly that offset; any other label gets one of its own candidates |
| LabelCollision.ResolveFails | src/utils/labelCollision.ts:83-147 | the run fails exactly when some measurement throws |
| LabelCollision.ResolveKeys | src/utils/labelCollision.ts:83-147 | a successful run has an entry for every id it met |
| LabelCollision.ResolveKeepsInvariants | src/utils/labelCollision.ts:83-147 | each step keeps the stored offsets and gives floating labels candidate offsets |
| LabelCollision.ResolveLaws | src/utils/labelCollision.ts:70-150 | whole run: fails iff a measurement throws; otherwise one entry per descriptor id, pinned offsets kept verbatim, every other offset one of that label's candidates |
| LabelCollision.ResolveCollisions | src/utils/labelCollision.ts:70-150 | the imperative resolver returns the specified result, with all of the above |
| PolylineLabels.SegmentRotationUpright | src/components/PolylineLayer.tsx:61-62 | the rotation is the atan2 direction in degrees, plus 180 exactly when it is outside [-90, 90] |
| PolylineLabels.Rem360Laws | src/components/PolylineLayer.tsx:81 | JavaScript's % 360 keeps the sign of its argument, stays within (-360, 360) and differs from it by whole turns |
| PolylineLabels.DisplayAngleLaws | src/components/PolylineLayer.tsx:80-82 | the raw angle is in [0, 360) and differs from the signed angle by whole turns; the displayed angle is in [0, 180], and is abs(s) when s is in [-180, 180] |
| PolylineLabels.DescriptorLaws | src/components/PolylineLayer.tsx:51-95 | n points give n-1 segment descriptors (font 12, priority 0) and max(0, n-2) angle descriptors (font 13, priority 10, rotation 0, key of vertex i-1), and each prefers its stored offset or (0, 0) |
| PolylineLabels.BuildDescriptors | src/components/PolylineLayer.tsx:49-95 | the two loops build the segment descriptors followed by the angle descriptors |
| PolylineLabels.PushSegmentDescriptors | src/components/PolylineLayer.tsx:51-73 | the segment loop appends exactly the segment descriptors |
| PolylineLabels.PushAngleDescriptors | src/components/PolylineLayer.tsx:75-95 | the angle loop appends exactly the angle descriptors |
| PolylineLabels.LineOffsetsLaws | src/components/PolylineLayer.tsx:97-104 | a throwing measurement gives an empty map; otherwise one entry per key, angle offsets win over segment offsets under the same key, and floating labels get candidates |
| PolylineLabels.ResolveLine | src/components/PolylineLayer.tsx:48-104 | the loop body computes that line's offsets |
| PolylineLabels.OffsetsPerLineAt | src/components/PolylineLayer.tsx:43-107 | line li has an entry exactly when it exists, holding that line's offsets |
| PolylineLabels.ResolvedOffsetsPerLine | src/components/PolylineLayer.tsx:43-107 | the per-line loop computes that map |
| TaperedStore.RecalculatePoints | src/store/taperedStore.ts:25-53 | the accumulator loop computes the specified points |
| TaperedStore.RecalculatedShape | src/store/taperedStore.ts:25-53 | [] gives []; otherwise one more point than segments, starting at the first start point; each step is the tapered length times (cos, sin) of the running sum of the stored angles |
| TaperedStore.AdvanceLength | src/store/taperedStore.ts:44-47 | each step is abs(taperedLength) long |
| TaperedStore.RecalculatedFromAnglesAndLengths | src/store/taperedStore.ts:25-53 | the rebuilt points depend only on the first start point, the angles and the tapered lengths |
| TaperedStore.BuildTaperedSegments | src/store/taperedStore.ts:66-108 | the creation loop builds the specified segments |
| TaperedStore.MakeSegment | src/store/taperedStore.ts:67-107 | one loop iteration builds segment i |
| TaperedStore.TaperedSegmentsLaws | src/store/taperedStore.ts:66-108 | n points give n-1 segments; segment i runs from point i to point i+1, and its tapered length starts equal to its original length, the distance between them |
| TaperedStore.SegmentAngleRange | src/store/taperedStore.ts:73-99 | segment 0's angle is a direction in (-pi, pi]; later angles are turns shifted by 2 pi when negative, so in [0, 2 pi) |
| TaperedStore.HeadingIsDirection | src/store/taperedStore.ts:29-41 | the running sum of the frozen angles is segment i's own direction up to whole turns |
| TaperedStore.CreatedReproducesPoints | src/store/taperedStore.ts:25-108 | rebuilding a freshly created diagram gives back the original points |
| TaperedStore.RefreshEndpoints | src/store/taperedStore.ts:143-146 | the loop sets each segment's start and end to consecutive rebuilt points |
| TaperedStore.UpdatedLaws | src/store/taperedStore.ts:126-158 | an update keeps the segment count, every angle and original length and the source drawing; it changes only the tapered length at the index; the first point stays, and points and segment ends agree |
| TaperedStore.UpdatedGeometry | src/store/taperedStore.ts:133-146 | after an update each rebuilt segment has its tapered length and the same running direction as before |
| TaperedStore.CreatedIsConsistent | src/store/taperedStore.ts:59-124 | a created diagram's points are the rebuild of its segments |
| TaperedStore.TaperedDiagramStore.constructor | src/store/taperedStore.ts:56-57 | no diagram, and the canvas shows the original drawing |
| TaperedStore.TaperedDiagramStore.CreateTaperedDiagram | src/store/taperedStore.ts:59-124 | fewer than 2 points changes nothing; otherwise the diagram is built and the mode becomes tapered |
| TaperedStore.TaperedDiagramStore.UpdateTaperedSegmentLength | src/store/taperedStore.ts:126-158 | no diagram or an index at or past the segment count changes nothing; otherwise the diagram becomes the updated one |
| TaperedStore.TaperedDiagramStore.SwitchToOriginal | src/store/taperedStore.ts:160-162 | the mode becomes original |
| TaperedStore.TaperedDiagramStore.SwitchToTapered | src/store/taperedStore.ts:164-169 | the mode becomes tapered only when a diagram exists |
| TaperedStore.TaperedDiagramStore.ClearTaperedDiagram | src/store/taperedStore.ts:171-176 | no diagram and the original mode |
| DrawingsStore.InitialValid | src/store/drawingsStore.ts:54-69 | the initial registry satisfies the invariant and holds an empty "original" drawing |
| DrawingsStore.AddDrawingLaws | src/store/drawingsStore.ts:71-86 | the drawing is registered and appended to the order with empty histories; the invariant is kept |
| DrawingsStore.RemoveDrawingLaws | src/store/drawingsStore.ts:88-118 | removing "original" is a no-op; any other id leaves drawings, order and both history maps, and an active removed drawing makes "original" active |
| DrawingsStore.SetActiveDrawingLaws | src/store/drawingsStore.ts:120-123 | only a registered id becomes active; an unknown id changes nothing |
| DrawingsStore.UpdateDrawingLinesLaws | src/store/drawingsStore.ts:125-156 | an unknown id changes nothing; otherwise the lines are set, the old lines are pushed onto past, which keeps the last 30 entries, and future is emptied |
| DrawingsStore.UpdateDrawingLinesKeepsValid | src/store/drawingsStore.ts:129-141 | the invariant, including past + future at most 30 per drawing, is kept |
| DrawingsStore.UndoLaws | src/store/drawingsStore.ts:240-274 | no target or an empty past changes nothing; otherwise the last past entry is restored, dropped from past, and the current lines are prepended to future |
| DrawingsStore.UndoKeepsValid | src/store/drawingsStore.ts:253-259 | undo keeps the invariant |
| DrawingsStore.RedoLaws | src/store/drawingsStore.ts:276-310 | the mirror image, from the front of future onto the end of past |
| DrawingsStore.RedoKeepsValid | src/store/drawingsStore.ts:289-295 | redo keeps the invariant |
| DrawingsStore.UndoThenRedo | src/store/drawingsStore.ts:240-310 | undo followed by redo restores the whole registry |
| DrawingsStore.RedoThenUndo | src/store/drawingsStore.ts:240-310 | redo followed by undo restores the whole registry |
| DrawingsStore.UndoKeepsTimeline | src/store/drawingsStore.ts:240-274 | undo only moves the cursor in past + [lines] + future |
| DrawingsStore.RedoKeepsTimeline | src/store/drawingsStore.ts:276-310 | redo only moves the cursor in past + [lines] + future |
| DrawingsStore.DrawingsRegistry.constructor | src/store/drawingsStore.ts:54-69 | the registry starts in the initial state |
| DrawingsStore.DrawingsRegistry.AddDrawing | src/store/drawingsStore.ts:71-86 | the new state is the specified one |
| DrawingsStore.DrawingsRegistry.RemoveDrawing | src/store/drawingsStore.ts:88-118 | the new state is the specified one |
| DrawingsStore.DrawingsRegistry.SetActiveDrawing | src/store/drawingsStore.ts:120-123 | the new state is the specified one |
| DrawingsStore.DrawingsRegistry.UpdateDrawingLines | src/store/drawingsStore.ts:125-156 | the new state is the specified one |
| DrawingsStore.DrawingsRegistry.ClearAll | src/store/drawingsStore.ts:221-238 | the registry is back to its initial state |
| DrawingsStore.DrawingsRegistry.Undo | src/store/drawingsStore.ts:240-274 | the new state is the specified one |
| DrawingsStore.DrawingsRegistry.Redo | src/store/drawingsStore.ts:276-310 | the new state is the specified one |
| DrawingsStore.DrawingsRegistry.GetDrawingByType | src/store/drawingsStore.ts:312-315 | a registered drawing of that type, and none exactly when there is no such drawing |
| DrawingStore.CommitLaws | src/store/drawingStore.ts:19-43 | a change pushes exactly the replaced lines onto the uncapped history and empties future |
| DrawingStore.ActionLaws | src/store/drawingStore.ts:19-43 | addLine appends the line; clear is a no-op without lines and otherwise empties them; setLines installs its argument; undo right after addLine restores the previous lines and history, and leaves only the state with the line to redo |
| DrawingStore.UndoLaws | src/store/drawingStore.ts:44-53 | an empty history changes nothing; otherwise the last entry is popped and the current lines are prepended to future; the snapshot sequence is unchanged |
| DrawingStore.RedoLaws | src/store/drawingStore.ts:54-63 | an empty future changes nothing; otherwise future[0] is installed and the current lines are appended to history |
| DrawingStore.RoundTrips | src/store/drawingStore.ts:44-63 | undo then redo, and redo then undo, are the identity |
| DrawingStore.DrawingTimeline.constructor | src/store/drawingStore.ts:15-18 | no lines, no history and no future |
| DrawingStore.DrawingTimeline.AddLine | src/store/drawingStore.ts:19-26 | the new state is the specified one |
| DrawingStore.DrawingTimeline.Clear | src/store/drawingStore.ts:27-35 | the new state is the specified one |
| DrawingStore.DrawingTimeline.SetLines | src/store/drawingStore.ts:36-43 | the new state is the specified one |
| DrawingStore.DrawingTimeline.Undo | src/store/drawingStore.ts:44-53 | the new state is the specified one |
| DrawingStore.DrawingTimeline.Redo | src/store/drawingStore.ts:54-63 | the new state is the specified one |
| LegacyStore.PointsAddedLaws | src/store.ts:20 | a run of addPoint calls appends the points to currentLine and leaves the lines alone |
| LegacyStore.EndedLaws | src/store.ts:21-24 | endLine always empties currentLine and commits one line holding its points exactly when it had more than one |
| LegacyStore.Stroke | src/store.ts:19-24 | startLine, addPoint calls and endLine commit one line through all the points exactly when a point was added |
| LegacyStore.LineAddedLaws | src/store.ts:25-26 | addLine appends and keeps currentLine; clear empties both |
| LegacyStore.LegacyDrawingStore.constructor | src/store.ts:17-18 | no lines and an empty current line |
| LegacyStore.LegacyDrawingStore.StartLine | src/store.ts:19 | currentLine becomes [p] |
| LegacyStore.LegacyDrawingStore.AddPoint | src/store.ts:20 | the new state is the specified one |
| LegacyStore.LegacyDrawingStore.EndLine | src/store.ts:21-24 | the new state is the specified one |
| LegacyStore.LegacyDrawingStore.Clear | src/store.ts:25 | both lists empty |
| LegacyStore.LegacyDrawingStore.AddLine | src/store.ts:26 | the new state is the specified one |
| EditSegment.MoveSegmentEnd | src/components/dialogs/EditSegmentDialog.tsx:34-48 | the in-place update of the point array produces the specified points |
| EditSegment.HandleOk | src/components/dialogs/EditSegmentDialog.tsx:24-53 | the handler's result is the specified edit |
| EditSegment.EditedRefused | src/components/dialogs/EditSegmentDialog.tsx:25-33 | nothing is handed over exactly when the length is NaN or not positive, the line is missing, or segIdx is not in [1, n) |
| EditSegment.EditedShape | src/components/dialogs/EditSegmentDialog.tsx:27-49 | only the chosen line changes, it keeps its point count, and the points before segIdx are unchanged |
| EditSegment.SegmentEndOnRay | src/components/dialogs/EditSegmentDialog.tsx:34-38 | the new point lies on the ray from A through B, at distance newLength from A |
| EditSegment.LengthEditedGeometry | src/components/dialogs/EditSegmentDialog.tsx:34-48 | prefix kept; the edited segment has the new length; every later displacement is unchanged, so later lengths and angles are kept |
| AddSegment.LengthInput | src/components/dialogs/AddSegmentDialog.tsx:27-29 | the length field is the input when positive, else 50, so it is always positive |
| AddSegment.DialogInputsAccepted | src/components/dialogs/AddSegmentDialog.tsx:25-54 | inputs that went through handleChange always pass validation |
| AddSegment.AddSegmentRefused | src/components/dialogs/AddSegmentDialog.tsx:47-58 | nothing is handed over exactly when the length is NaN or not positive, the angle is NaN, the line is missing, or it has no point |
| AddSegment.AddSegmentLaws | src/components/dialogs/AddSegmentDialog.tsx:56-81 | "end" appends and "start" prepends one point; the others keep their order; the new point is `length` from the end point; other lines are unchanged |
| AddSegment.SinglePointExtended | src/components/dialogs/AddSegmentDialog.tsx:59-74 | on a one-point line the reference is the point itself and the new point lies in direction 180 - angle (plus 360 when negative) |
| EditAngle.PlanRefused | src/components/dialogs/EditAngleDialog.tsx:41-72 | no rotation is asked for exactly when the angle is not finite, the line is missing or has fewer than 3 points, or segIdx is outside [1, n-2] |
| EditAngle.PlanRotates | src/components/dialogs/EditAngleDialog.tsx:80-132 | an accepted edit pivots on segIdx and turns by degToRad(requested - angleAtVertexDegrees(A, B, C)) |
| EditAngle.TailNeverEmpty | src/components/dialogs/EditAngleDialog.tsx:116-126 | after the range check, tailCount is at least 1, so the nothing-to-rotate branch is dead |
| EditAngle.RotatedTailAt | src/components/dialogs/EditAngleDialog.tsx:132 | up to the pivot points stay; from the pivot on each is turned about it |
| EditAngle.RotatedTailKeepsLengths | src/components/dialogs/EditAngleDialog.tsx:132 | the rotation keeps the count, the prefix and every segment length |
| EditAngle.RotatedTailKeepsAngles | src/components/dialogs/EditAngleDialog.tsx:132 | every vertex angle after the pivot is kept |
| EditAngle.RotateOneKeepsAngle | src/utils/geometryUtils.ts:58-83 | turning three points about one pivot keeps the signed angle at the middle one |
| EditAngle.ComputeSegmentLengths | src/components/dialogs/EditAngleDialog.tsx:28-34 | n points give max(0, n-1) lengths, length i being that of segment i |
| EditAngle.FoldAngleDeltaRange | src/components/dialogs/EditAngleDialog.tsx:175-178 | a difference in (-540, 540] folds into (-180, 180] by at most one turn |
| EditAngle.AngleComparison | src/components/dialogs/EditAngleDialog.tsx:171-179 | for two vertex angles the folded difference is zero exactly when they are equal |
| EndFold.KeyBound | src/components/EndFoldLabel.tsx:53-54 | every key of the edit map lies below the bound |
| EndFold.ObjectValuesContiguous | src/components/EndFoldLabel.tsx:53-54 | for keys 0..n-1, Object.values lists the n edits in key order |
| EndFold.FirstLong | src/components/EndFoldLabel.tsx:29 | the first line with more than one point, or none exactly when there is none |
| EndFold.LastLong | src/components/EndFoldLabel.tsx:38 | the last line with more than one point, or none exactly when there is none |
| EndFold.AnchorLaws | src/components/EndFoldLabel.tsx:26-66 | "first" anchors at points[0] of the first such line, with points[1] as reference; "last" anchors at the final point of the last such line, with the one before it |
| EndFold.NextChainPoint | src/components/EndFoldLabel.tsx:68-74 | one iteration's branch computes the specified step |
| EndFold.FoldChain | src/components/EndFoldLabel.tsx:55-76 | the loop builds the specified chain |
| EndFold.RenderEndFold | src/components/EndFoldLabel.tsx:22-76 | the component computes the specified chain, or none |
| EndFold.EndFoldShown | src/components/EndFoldLabel.tsx:26-81 | nothing is produced exactly when that end has no fold info or no line has more than one point; the dashed line is drawn exactly when there is an edit |
| EndFold.ChainLaws | src/components/EndFoldLabel.tsx:53-76 | the chain starts at the anchor with one point per edit more; each step is abs(Length) long; step 1 uses the anchor's neighbour as reference; later steps head in the absolute direction 180 - Angle |
| FoldDialog.FindFold | src/components/dialogs/FoldDialog.tsx:68 | the found template has the id, and none is found exactly when no template has it |
| FoldDialog.TemplateEdits | src/components/dialogs/FoldDialog.tsx:68-76 | a template gives edits with keys 0..N-1 copying each segment's length and angle |
| FoldDialog.SelectionEffect | src/components/dialogs/FoldDialog.tsx:63-78 | NO_FOLD clears the edits; a loaded template replaces them; an unknown id leaves them |
| FoldDialog.HandleOkLaws | src/components/dialogs/FoldDialog.tsx:82-94 | OK with NO_FOLD removes the chosen end's fold; otherwise it stores the selection, the edits and the old direction for that end only |
| FoldDialog.OkWithoutChanges | src/components/dialogs/FoldDialog.tsx:46-94 | OK right after opening, before the fold templates have loaded, leaves the folds as they were, except that a fold stored with an empty or NO_FOLD id is removed |
| FoldDialog.FieldEditLaws | src/components/dialogs/FoldDialog.tsx:154-190 | a Length or Angle edit changes only that field of that entry and keeps the keys contiguous |
| FoldDialog.AddSegmentEditLaws | src/components/dialogs/FoldDialog.tsx:200-208 | "Add Segment" adds {50, 0} under the fresh key equal to the count, keeps the keys contiguous, and appends it to the chain's segments |
| DrawingHook.ActiveDrawing | src/hooks/useDrawing.ts:24 | the active drawing exists exactly when the id is set, non-empty and registered; in a well-formed registry, whose active id is always registered, exactly when that id is non-empty |
| DrawingHook.ClickedLinesLaws | src/hooks/useDrawing.ts:63-82 | with 2 or more points the polyline replaces the last line, or is pushed onto an empty drawing; all other lines stay |
| DrawingHook.ClicksReplaceSameLine | src/hooks/useDrawing.ts:63-82 | two clicks of one stroke write the same slot, so the second alone decides the lines |
| DrawingHook.DrawingSession.constructor | src/hooks/useDrawing.ts:20-22 | an empty polyline, in drawing mode |
| DrawingHook.DrawingSession.HandleStageClick | src/hooks/useDrawing.ts:39-83 | no active drawing, a locked one, or drawing mode off changes nothing; otherwise the point is appended and the lines are the specified ones |
| DrawingHook.DrawingSession.HandlePointDrag | src/hooks/useDrawing.ts:106-117 | a locked or absent drawing changes nothing; otherwise the dragged point is replaced, an index one past the end appends the point, and a negative index leaves the points as they are |
| DrawingHook.DrawingSession.FinishDrawing | src/hooks/useDrawing.ts:200-214 | acts only in drawing mode with 2 or more points, then empties the polyline and leaves drawing mode |
| DrawingHook.DrawingSession.ClearDrawing | src/hooks/useDrawing.ts:221-232 | with an active drawing its lines become empty, the polyline is dropped and drawing mode resumes |
| DrawingHook.HandleFinishedLinePointDrag | src/hooks/useDrawing.ts:119-133 | locked or absent changes nothing; otherwise only that line's points change: the point at an index in range is replaced, an index one past the end appends it, and a negative index leaves the points as they are while the lines are still handed over |
| DrawingHook.PadLabelPositions | src/hooks/useDrawing.ts:150-153 | the list is padded with (0, 0) until it has an entry at segmentIdx; earlier entries are kept |
| DrawingHook.HandleLabelDragMove | src/hooks/useDrawing.ts:135-160 | locked or absent changes nothing; otherwise the label entry is set after padding, earlier entries kept, nothing else changes |
| DrawingHook.ResizeAngleLabels | src/hooks/useDrawing.ts:180-188 | the list has exactly n slots, the old prefix copied and null beyond it |
| DrawingHook.HandleAngleLabelDragMove | src/hooks/useDrawing.ts:162-198 | locked or absent changes nothing; otherwise exactly max(0, n-2) slots, the old ones kept, and the dragged one set only when in range |

## Left out

- Floating point. Coordinates are reals and the library functions obey only
  the laws in `HostMath.Lawful`. IEEE rounding, exact trigonometric values,
  infinities and `toFixed` formatting are not modelled. A NaN input is `None`.
  The label texts and keys come from a `PolylineLabels.Naming` value.
- Text measurement. The canvas is a function parameter of the resolver. DOM
  access, fonts and `console` output are not modelled.
- The sort. `LabelCollision.SortByOrder` is a stable insertion sort with
  the source's comparator. Labels tied under it (same priority and same id)
  keep their input order, as the stable `Array.prototype.sort` keeps them.
  This holds by construction (an entry is inserted after every entry it
  does not precede); `LabelCollision.SortByOrderLaws` proves only that the
  result is a permutation in comparator order, not the stability.
- LabelCollision.LexLess: ids are compared by Unicode scalar value, while
  JavaScript's `<` compares UTF-16 code units. The two orders differ only
  for ids with characters beyond U+FFFF compared against U+E000 to U+FFFF.
- Clocks, ids and I/O. `Date.now()` ids are parameters (`newId`).
  Timestamps, `alert`, `closeDialog` and the `fetch` of the fold templates
  are not modelled: the loaded templates are a parameter. Stage pointer
  transforms are not modelled either: a click arrives as a point.
- `syncDrawings` and `updateDrawing` are left out. They call
  `updateDrawingLines` inside another `set`, so their effect depends on the
  store library's merge order. The sync options are unimplemented.
- `toggleLock`, `handleCreateDrawing`, hover tracking and the context menu of
  the drawing hook are event plumbing and are left out.
- `rotateSubchainAroundIndex` and the endpoint setters are called by the
  dialogs but are not part of this model, because their definitions are not
  in the repository's store. The angle dialog is modelled up to its
  rotation request (`EditAngle.PlanAngleEdit`). The effect it asks for is
  `EditAngle.RotatedTail`, built on `rotatePointsAround`. The fold dialog's
  result is an `Endpoints` value.
- EditAngle.RotatedTail: the angle at the pivot after the rotation is not
  proved to equal the requested one. That needs an addition law for atan2,
  which is not among the assumed laws.
- The angle dialog's debug listings are not modelled, except the length
  listing and the difference folding. The unused segment-length fallback is
  not modelled either.
- EndFold: the `baseAngle` the component computes is never used, and it is
  not modelled.
- Aliasing. The handlers mutate point and line objects that the store's
  history snapshots share. The model uses value semantics, so snapshots
  never change after the fact.
- EditSegment.Edited: a `segIdx` of 0 makes the handler return before
  `closeDialog()`. This only shows as `None`.
- AddSegment.AddSegmentToLine: a line with no points makes the source throw
  on an undefined point. The model returns `None`.
- DrawingHook.HandleFinishedLinePointDrag: a missing line throws in the
  source, and a point index more than one past the end grows the array with
  holes. Both are `None` in the model.
- DrawingHook.DrawingSession.HandlePointDrag: an index beyond one past the
  end leaves a hole in the array in the source. The model leaves the
  polyline unchanged in that case.
- DrawingHook.HandleLabelDragMove: a missing line makes the source throw
  when it reads `labelPositions` of undefined. The model returns `None`.
- DrawingHook.HandleAngleLabelDragMove: a missing line makes the source
  throw when it reads `points` of undefined. The model returns `None`.
- AddSegment: the handler's `push` and `unshift` on its copied point array
  are modelled as sequence concatenation in `AddSegment.Extended`; the copy
  is never shared, so nothing else is lost.
- FoldDialog: an empty Length or Angle field parses as 0 and is stored as
  0. The dialog's fields are modelled as reals.
- DrawingsStore.DrawingsRegistry.GetDrawingByType: it returns some drawing
  of the type, and does not determine which one `Object.values` order
  would find first.
- TaperedStore: the diagram's id, name and timestamps are not modelled. The
  `TaperedDiagram` type is not part of this model's type file either.

## Notes on the code as written

- `handleStageClick` writes the growing polyline over the last line of the
  drawing, and pushes a new line only onto an empty drawing
  (`DrawingHook.ClickedLinesLaws`). After an earlier stroke, a new stroke's
  second click therefore replaces that stroke's line instead of adding one.
  The model keeps this behaviour.
- The end-fold loop passes the current point as both references for every
  step after the first. So those steps head in the absolute direction
  180 - Angle (plus a turn when negative), not relative to the previous
  step (`EndFold.ChainLaws`). The model follows the code.
- An `updateTaperedSegmentLength` call with a negative index is not
  rejected. It writes a non-index property, so the points are rebuilt from
  unchanged lengths (`TaperedStore.EditLength`).
- The fold dialog's selection effect also runs when the fold templates
  finish loading. For a stored template fold, that run replaces the
  customised segment edits with the template's defaults
  (`FoldDialog.SelectionEffect`), so `FoldDialog.OkWithoutChanges` only
  describes an OK pressed before the templates arrive.
