/** The fold dialog: choosing a fold template fills the per-segment edits,
    the Length and Angle fields and "Add Segment" update them, and OK
    stores or removes the fold of the chosen end. */
module FoldDialog {
  import opened Types
  import opened EndFold

  /** The selection meaning "no fold". */
  const NoFold := "NO_FOLD"

  /** A fold template: its id and the length and angle of each segment. */
  datatype FoldTemplate = FoldTemplate(id: string, segments: seq<SegmentEdit>)

  /** The end the dialog was opened for; `NoEnd` is the null end. */
  datatype DialogEnd = StartEnd | EndEnd | NoEnd

  /** The fold information of both ends of the drawing. */
  datatype Endpoints = Endpoints(first: Option<FoldEndpointInfo>, last: Option<FoldEndpointInfo>)

  /** The stored fold information of the chosen end. */
  function InfoOf(e: Endpoints, end: DialogEnd): Option<FoldEndpointInfo>
  {
    match end
    case StartEnd => e.first
    case EndEnd => e.last
    case NoEnd => None
  }

  /** The initial selection: the stored template id, or "no fold" when
      there is none or it is the empty string. */
  function InitialSelectedId(e: Endpoints, end: DialogEnd): string
  {
    var info := InfoOf(e, end);
    if info.Some? && info.value.selectedId != "" then info.value.selectedId else NoFold
  }

  /** The initial edits: the stored ones, or none. */
  function InitialEdits(e: Endpoints, end: DialogEnd): map<nat, SegmentEdit>
  {
    var info := InfoOf(e, end);
    if info.Some? then info.value.segmentEdits else map[]
  }

  /** `endpointInfo?.direction ?? ''`. */
  function DirectionOf(e: Endpoints, end: DialogEnd): string
  {
    var info := InfoOf(e, end);
    if info.Some? then info.value.direction else ""
  }

  /** `folds.find(f => f.Id === id)`. */
  function FindFold(folds: seq<FoldTemplate>, id: string): (r: Option<FoldTemplate>)
    ensures r.Some? ==> r.value in folds && r.value.id == id
    ensures r.None? <==> forall k :: 0 <= k < |folds| ==> folds[k].id != id
  {
    if |folds| == 0 then None
    else if folds[0].id == id then Some(folds[0])
    else FindFold(folds[1..], id)
  }

  /** The `forEach` that turns a template's segments into edits keyed by
      their position. */
  method TemplateEdits(segments: seq<SegmentEdit>) returns (edits: map<nat, SegmentEdit>)
    ensures Contiguous(edits) && |edits| == |segments|
    ensures forall i :: 0 <= i < |segments| ==> i in edits && edits[i] == segments[i]
  {
    edits := map[];
    var idx := 0;
    while idx < |segments|
      invariant 0 <= idx <= |segments|
      invariant forall k: nat :: k in edits <==> k < idx
      invariant |edits| == idx
      invariant forall i :: 0 <= i < idx ==> edits[i] == segments[i]
    {
      var seg := segments[idx];
      assert idx !in edits;
      edits := edits[idx := SegmentEdit(seg.length, seg.angle)];
      idx := idx + 1;
    }
  }

  /** The selection effect: "no fold" clears the edits, a template that is
      loaded replaces them with its segments, and an id that is not (yet)
      among the loaded templates leaves them alone. */
  method SelectionEffect(folds: seq<FoldTemplate>, selectedId: string, edits: map<nat, SegmentEdit>)
      returns (newEdits: map<nat, SegmentEdit>)
    ensures selectedId == NoFold ==> newEdits == map[]
    ensures selectedId != NoFold && FindFold(folds, selectedId).None? ==> newEdits == edits
    ensures selectedId != NoFold && FindFold(folds, selectedId).Some? ==>
      var segs := FindFold(folds, selectedId).value.segments;
      && Contiguous(newEdits) && |newEdits| == |segs|
      && forall i :: 0 <= i < |segs| ==> newEdits[i] == segs[i]
  {
    if selectedId == NoFold {
      return map[];
    }
    var fold := FindFold(folds, selectedId);
    if fold.Some? {
      newEdits := TemplateEdits(fold.value.segments);
    } else {
      newEdits := edits;
    }
  }

  /** `handleOk`: "no fold" removes the chosen end's fold; otherwise that
      end gets the selection, the edits and the end's previous direction.
      The null end changes nothing. */
  function HandleOk(e: Endpoints, end: DialogEnd, selectedId: string, segmentEdits: map<nat, SegmentEdit>): Endpoints
  {
    var info := if selectedId == NoFold then None
                else Some(FoldEndpointInfo(selectedId, segmentEdits, DirectionOf(e, end)));
    match end
    case StartEnd => e.(first := info)
    case EndEnd => e.(last := info)
    case NoEnd => e
  }

  /** OK touches the chosen end only, removes its fold for "no fold" and
      otherwise stores exactly the selection and the edits. */
  lemma HandleOkLaws(e: Endpoints, end: DialogEnd, selectedId: string, segmentEdits: map<nat, SegmentEdit>)
    ensures var r := HandleOk(e, end, selectedId, segmentEdits);
      && (end == StartEnd ==> r.last == e.last)
      && (end == EndEnd ==> r.first == e.first)
      && (end == NoEnd ==> r == e)
      && (end != NoEnd && selectedId == NoFold ==> InfoOf(r, end).None?)
      && (end != NoEnd && selectedId != NoFold ==>
            InfoOf(r, end) == Some(FoldEndpointInfo(selectedId, segmentEdits, DirectionOf(e, end))))
  {
  }

  /** Opening the dialog and pressing OK before anything changed the
      selection or the edits leaves the folds as they were, except that a
      fold stored with an empty or "no fold" template id is removed. */
  lemma OkWithoutChanges(e: Endpoints, end: DialogEnd)
    ensures var r := HandleOk(e, end, InitialSelectedId(e, end), InitialEdits(e, end));
      && (end != NoEnd && InfoOf(e, end).Some? && InfoOf(e, end).value.selectedId in {"", NoFold} ==>
            InfoOf(r, end).None? && (end == StartEnd ==> r.last == e.last) && (end == EndEnd ==> r.first == e.first))
      && (!(end != NoEnd && InfoOf(e, end).Some? && InfoOf(e, end).value.selectedId in {"", NoFold}) ==> r == e)
  {
  }

  /** The Length field of entry idx. */
  function SetLength(edits: map<nat, SegmentEdit>, idx: nat, value: real): map<nat, SegmentEdit>
    requires idx in edits
  {
    edits[idx := edits[idx].(length := value)]
  }

  /** The Angle field of entry idx. */
  function SetAngle(edits: map<nat, SegmentEdit>, idx: nat, value: real): map<nat, SegmentEdit>
    requires idx in edits
  {
    edits[idx := edits[idx].(angle := value)]
  }

  /** "Add Segment": a new entry of length 50 and angle 0 under the key
      given by the current number of entries. */
  function AddSegmentEdit(edits: map<nat, SegmentEdit>): map<nat, SegmentEdit>
  {
    edits[|edits| := SegmentEdit(50.0, 0.0)]
  }

  /** A field edit changes only that field of that entry. */
  lemma FieldEditLaws(edits: map<nat, SegmentEdit>, idx: nat, value: real)
    requires idx in edits
    ensures SetLength(edits, idx, value).Keys == edits.Keys
    ensures SetLength(edits, idx, value)[idx] == SegmentEdit(value, edits[idx].angle)
    ensures forall k :: k in edits && k != idx ==> SetLength(edits, idx, value)[k] == edits[k]
    ensures SetAngle(edits, idx, value).Keys == edits.Keys
    ensures SetAngle(edits, idx, value)[idx] == SegmentEdit(edits[idx].length, value)
    ensures forall k :: k in edits && k != idx ==> SetAngle(edits, idx, value)[k] == edits[k]
    ensures Contiguous(edits) ==> Contiguous(SetLength(edits, idx, value)) && Contiguous(SetAngle(edits, idx, value))
  {
  }

  /** On contiguous edits, "Add Segment" adds one entry under a fresh key,
      keeps every other entry and keeps the keys contiguous; the preview
      chain then has one more segment, the new one last. */
  lemma AddSegmentEditLaws(edits: map<nat, SegmentEdit>)
    requires Contiguous(edits)
    ensures |edits| !in edits
    ensures var r := AddSegmentEdit(edits);
      && Contiguous(r) && |r| == |edits| + 1
      && (forall k :: k in edits ==> r[k] == edits[k])
      && ObjectValues(r) == ObjectValues(edits) + [SegmentEdit(50.0, 0.0)]
  {
    var r := AddSegmentEdit(edits);
    assert |r| == |edits| + 1;
    ObjectValuesContiguous(edits);
    ObjectValuesContiguous(r);
  }
}
