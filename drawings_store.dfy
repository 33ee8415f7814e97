/** The drawing registry: a set of named drawings, one of them active, a
    rendering order, and a separate undo/redo history for each drawing.  The
    default drawing "original" can never be removed, and each history keeps
    at most 30 snapshots.  The state is described by the value `Registry`
    and one function per action; the class `DrawingsRegistry` performs the
    actions on its fields and is proved to follow those functions. */
module DrawingsStore {
  import opened Types

  const DefaultDrawingId := "original"

  /** How many snapshots an undo history keeps. */
  const HistoryCap := 30

  datatype DrawingType = OriginalDrawing | TaperedDrawing | CustomDrawing

  /** A drawing; its free-form metadata is not part of the model. */
  datatype Drawing = Drawing(
    id: string,
    name: string,
    kind: DrawingType,
    lines: seq<Line>,
    visible: bool,
    locked: bool,
    sourceId: Option<string>)

  /** Per-drawing stacks of line snapshots. */
  type Histories = map<string, seq<seq<Line>>>

  datatype Registry = Registry(
    drawings: map<string, Drawing>,
    activeDrawingId: Option<string>,
    drawingOrder: seq<string>,
    past: Histories,
    future: Histories)

  function DefaultDrawing(): Drawing
  {
    Drawing(DefaultDrawingId, "Original", OriginalDrawing, [], true, false, None)
  }

  /** The state at start-up and after `clearAll`. */
  function Initial(): Registry
  {
    Registry(map[DefaultDrawingId := DefaultDrawing()], Some(DefaultDrawingId), [DefaultDrawingId],
             map[DefaultDrawingId := []], map[DefaultDrawingId := []])
  }

  /** A drawing's history stack, a missing entry read as empty. */
  function Entries(h: Histories, id: string): seq<seq<Line>>
  {
    if id in h then h[id] else []
  }

  /** The last `n` snapshots, as `slice(-n)` keeps them. */
  function KeepLast(s: seq<seq<Line>>, n: nat): seq<seq<Line>>
  {
    if |s| > n then s[|s| - n..] else s
  }

  /** `order` with every occurrence of `id` filtered out. */
  function Without(order: seq<string>, id: string): seq<string>
  {
    if |order| == 0 then []
    else (if order[0] == id then [] else [order[0]]) + Without(order[1..], id)
  }

  // ---------------------------------------------------------------------
  // The actions, as functions of the state
  // ---------------------------------------------------------------------

  function Added(r: Registry, drawing: Drawing): Registry
  {
    r.(drawings := r.drawings[drawing.id := drawing],
       drawingOrder := r.drawingOrder + [drawing.id],
       past := r.past[drawing.id := []],
       future := r.future[drawing.id := []])
  }

  function Removed(r: Registry, id: string): Registry
  {
    if id == DefaultDrawingId then r
    else
      Registry(r.drawings - {id},
               if r.activeDrawingId == Some(id) then Some(DefaultDrawingId) else r.activeDrawingId,
               Without(r.drawingOrder, id),
               r.past - {id},
               r.future - {id})
  }

  function Activated(r: Registry, id: string): Registry
  {
    if id !in r.drawings then r else r.(activeDrawingId := Some(id))
  }

  function LinesUpdated(r: Registry, id: string, lines: seq<Line>): Registry
  {
    if id !in r.drawings then r
    else
      var pushed := Entries(r.past, id) + [r.drawings[id].lines];
      r.(drawings := r.drawings[id := r.drawings[id].(lines := lines)],
         past := r.past[id := KeepLast(pushed, HistoryCap)],
         future := r.future[id := []])
  }

  /** The drawing an undo or redo acts on: the given id, or the active one
      when none (or the empty id) is given; the empty id names nothing. */
  function Target(r: Registry, id: Option<string>): Option<string>
  {
    if id.Some? && id.value != "" then id
    else if r.activeDrawingId.Some? && r.activeDrawingId.value != "" then r.activeDrawingId
    else None
  }

  function Undone(r: Registry, id: Option<string>): Registry
  {
    var t := Target(r, id);
    if t.None? || t.value !in r.drawings || |Entries(r.past, t.value)| == 0 then r
    else
      var k := t.value;
      var past := Entries(r.past, k);
      r.(drawings := r.drawings[k := r.drawings[k].(lines := past[|past| - 1])],
         past := r.past[k := past[..|past| - 1]],
         future := r.future[k := [r.drawings[k].lines] + Entries(r.future, k)])
  }

  function Redone(r: Registry, id: Option<string>): Registry
  {
    var t := Target(r, id);
    if t.None? || t.value !in r.drawings || |Entries(r.future, t.value)| == 0 then r
    else
      var k := t.value;
      var future := Entries(r.future, k);
      r.(drawings := r.drawings[k := r.drawings[k].(lines := future[0])],
         past := r.past[k := Entries(r.past, k) + [r.drawings[k].lines]],
         future := r.future[k := future[1..]])
  }

  /** Whether `Undone(r, id)` does anything. */
  predicate CanUndo(r: Registry, id: Option<string>)
  {
    var t := Target(r, id);
    t.Some? && t.value in r.drawings && |Entries(r.past, t.value)| > 0
  }

  predicate CanRedo(r: Registry, id: Option<string>)
  {
    var t := Target(r, id);
    t.Some? && t.value in r.drawings && |Entries(r.future, t.value)| > 0
  }

  // ---------------------------------------------------------------------
  // The registry invariant
  // ---------------------------------------------------------------------

  /** Every reachable state: the default drawing exists, the active drawing
      exists, the order lists exactly the registered drawings, each drawing
      has both history stacks and no others exist, and each drawing's
      undo and redo stacks hold at most 30 snapshots together. */
  ghost predicate Valid(r: Registry)
  {
    && DefaultDrawingId in r.drawings
    && r.activeDrawingId.Some? && r.activeDrawingId.value in r.drawings
    && (forall k :: k in r.drawings <==> k in r.drawingOrder)
    && r.past.Keys == r.drawings.Keys
    && r.future.Keys == r.drawings.Keys
    && forall k :: k in r.past ==> |r.past[k]| + |Entries(r.future, k)| <= HistoryCap
  }

  lemma InitialValid()
    ensures Valid(Initial())
    ensures Initial().drawings[DefaultDrawingId].lines == []
  {
  }

  lemma {:induction false} WithoutLaws(order: seq<string>, id: string)
    ensures forall x :: x in Without(order, id) <==> x in order && x != id
    ensures |Without(order, id)| <= |order|
  {
    if |order| > 0 {
      WithoutLaws(order[1..], id);
      assert order == [order[0]] + order[1..];
    }
  }

  /** Adding a drawing registers it (replacing one with the same id),
      appends its id to the order, and gives it empty histories; the
      invariant is kept. */
  lemma AddDrawingLaws(r: Registry, drawing: Drawing)
    requires Valid(r)
    ensures var s := Added(r, drawing);
      && Valid(s)
      && s.drawings[drawing.id] == drawing
      && s.drawingOrder == r.drawingOrder + [drawing.id]
      && Entries(s.past, drawing.id) == [] && Entries(s.future, drawing.id) == []
      && s.activeDrawingId == r.activeDrawingId
      && forall k :: k in r.drawings && k != drawing.id ==> k in s.drawings && s.drawings[k] == r.drawings[k]
  {
    var s := Added(r, drawing);
    forall k | k in s.past
      ensures |s.past[k]| + |Entries(s.future, k)| <= HistoryCap
    {
      if k != drawing.id {
        assert k in r.past;
      }
    }
  }

  /** Removing "original" does nothing.  Removing any other id takes it out
      of the drawings, the order and both history maps, makes "original"
      active if it was the active drawing, and leaves every other drawing
      as it was; the invariant is kept. */
  lemma RemoveDrawingLaws(r: Registry, id: string)
    requires Valid(r)
    ensures id == DefaultDrawingId ==> Removed(r, id) == r
    ensures var s := Removed(r, id);
      && Valid(s)
      && (id != DefaultDrawingId ==>
            && id !in s.drawings && id !in s.drawingOrder && id !in s.past && id !in s.future
            && (r.activeDrawingId == Some(id) ==> s.activeDrawingId == Some(DefaultDrawingId))
            && (r.activeDrawingId != Some(id) ==> s.activeDrawingId == r.activeDrawingId))
      && forall k :: k in r.drawings && k != id ==> k in s.drawings && s.drawings[k] == r.drawings[k]
  {
    WithoutLaws(r.drawingOrder, id);
    var s := Removed(r, id);
    if id != DefaultDrawingId {
      forall k | k in s.past
        ensures |s.past[k]| + |Entries(s.future, k)| <= HistoryCap
      {
        assert k in r.past && Entries(s.future, k) == Entries(r.future, k);
      }
    }
  }

  /** Only a registered id becomes active. */
  lemma SetActiveDrawingLaws(r: Registry, id: string)
    requires Valid(r)
    ensures var s := Activated(r, id);
      && Valid(s)
      && (id in r.drawings ==> s.activeDrawingId == Some(id))
      && (id !in r.drawings ==> s == r)
      && s.drawings == r.drawings && s.past == r.past && s.future == r.future
  {
  }

  /** An id that is not registered changes nothing.  Otherwise the drawing
      gets the new lines, its undo stack ends with the old lines and holds
      the most recent min(n + 1, 30) snapshots, its redo stack is emptied,
      and no other drawing or history changes. */
  lemma UpdateDrawingLinesLaws(r: Registry, id: string, lines: seq<Line>)
    ensures id !in r.drawings ==> LinesUpdated(r, id, lines) == r
    ensures var s := LinesUpdated(r, id, lines);
      && (id in r.drawings ==>
            var before := Entries(r.past, id);
            && s.drawings[id] == r.drawings[id].(lines := lines)
            && |s.past[id]| == (if |before| < HistoryCap then |before| + 1 else HistoryCap)
            && s.past[id][|s.past[id]| - 1] == r.drawings[id].lines
            && (forall j :: 0 <= j < |s.past[id]| - 1 ==>
                  s.past[id][j] == before[|before| - |s.past[id]| + 1 + j])
            && s.future[id] == [])
      && s.activeDrawingId == r.activeDrawingId && s.drawingOrder == r.drawingOrder
      && (forall k :: k != id ==>
            && (k in r.drawings ==> k in s.drawings && s.drawings[k] == r.drawings[k])
            && Entries(s.past, k) == Entries(r.past, k) && Entries(s.future, k) == Entries(r.future, k))
  {
  }

  /** Updating lines keeps the registry invariant: the undo stack is capped
      at 30 and the redo stack emptied. */
  lemma UpdateDrawingLinesKeepsValid(r: Registry, id: string, lines: seq<Line>)
    requires Valid(r)
    ensures Valid(LinesUpdated(r, id, lines))
  {
    var s := LinesUpdated(r, id, lines);
    if id in r.drawings {
      forall k | k in s.past
        ensures |s.past[k]| + |Entries(s.future, k)| <= HistoryCap
      {
        if k != id {
          assert k in r.past;
        }
      }
    }
  }

  /** When there is nothing to undo, undo changes nothing.  Otherwise the
      target drawing gets its last undo snapshot back, that snapshot leaves
      the undo stack, the replaced lines go to the front of the redo stack,
      and nothing else changes. */
  lemma UndoLaws(r: Registry, id: Option<string>)
    ensures !CanUndo(r, id) ==> Undone(r, id) == r
    ensures CanUndo(r, id) ==>
      var k := Target(r, id).value;
      var s := Undone(r, id);
      && s.drawings[k].lines == r.past[k][|r.past[k]| - 1]
      && s.past[k] + [r.past[k][|r.past[k]| - 1]] == r.past[k]
      && s.future[k] == [r.drawings[k].lines] + Entries(r.future, k)
      && s.activeDrawingId == r.activeDrawingId && s.drawingOrder == r.drawingOrder
      && forall j :: j != k ==>
           && (j in r.drawings ==> j in s.drawings && s.drawings[j] == r.drawings[j])
           && Entries(s.past, j) == Entries(r.past, j) && Entries(s.future, j) == Entries(r.future, j)
  {
    if CanUndo(r, id) {
      var k := Target(r, id).value;
      assert r.past[k] == r.past[k][..|r.past[k]| - 1] + [r.past[k][|r.past[k]| - 1]];
    }
  }

  /** Undo keeps the registry invariant. */
  lemma UndoKeepsValid(r: Registry, id: Option<string>)
    requires Valid(r)
    ensures Valid(Undone(r, id))
  {
    if CanUndo(r, id) {
      var s := Undone(r, id);
      forall j | j in s.past
        ensures |s.past[j]| + |Entries(s.future, j)| <= HistoryCap
      {
        assert j in r.past;
      }
    }
  }

  /** The mirror image of `UndoLaws`: redo takes the first redo snapshot
      and pushes the replaced lines onto the undo stack. */
  lemma RedoLaws(r: Registry, id: Option<string>)
    ensures !CanRedo(r, id) ==> Redone(r, id) == r
    ensures CanRedo(r, id) ==>
      var k := Target(r, id).value;
      var s := Redone(r, id);
      && s.drawings[k].lines == r.future[k][0]
      && [r.future[k][0]] + s.future[k] == r.future[k]
      && s.past[k] == Entries(r.past, k) + [r.drawings[k].lines]
      && s.activeDrawingId == r.activeDrawingId && s.drawingOrder == r.drawingOrder
      && forall j :: j != k ==>
           && (j in r.drawings ==> j in s.drawings && s.drawings[j] == r.drawings[j])
           && Entries(s.past, j) == Entries(r.past, j) && Entries(s.future, j) == Entries(r.future, j)
  {
    if CanRedo(r, id) {
      var k := Target(r, id).value;
      assert r.future[k] == [r.future[k][0]] + r.future[k][1..];
    }
  }

  /** Redo keeps the registry invariant: it moves one snapshot from the redo
      stack to the undo stack, so their combined size stays at most 30. */
  lemma RedoKeepsValid(r: Registry, id: Option<string>)
    requires Valid(r)
    ensures Valid(Redone(r, id))
  {
    if CanRedo(r, id) {
      var s := Redone(r, id);
      forall j | j in s.past
        ensures |s.past[j]| + |Entries(s.future, j)| <= HistoryCap
      {
        assert j in r.past;
      }
    }
  }

  /** Writing back the value a map already holds leaves the map as it was. */
  lemma RestoreEntry<K, V>(m: map<K, V>, k: K, v: V)
    requires k in m
    ensures m[k := v][k := m[k]] == m
  {
  }

  /** Undo followed by redo on the same target restores the whole state
      (the target has a redo stack in every valid state). */
  lemma UndoThenRedo(r: Registry, id: Option<string>)
    requires CanUndo(r, id) && Target(r, id).value in r.future
    ensures CanRedo(Undone(r, id), id)
    ensures Redone(Undone(r, id), id) == r
  {
    var k := Target(r, id).value;
    var s := Undone(r, id);
    var past := r.past[k];
    assert Target(s, id) == Target(r, id);
    assert past[..|past| - 1] + [past[|past| - 1]] == past;
    RestoreEntry(r.drawings, k, r.drawings[k].(lines := past[|past| - 1]));
    RestoreEntry(r.past, k, past[..|past| - 1]);
    RestoreEntry(r.future, k, [r.drawings[k].lines] + r.future[k]);
  }

  /** Redo followed by undo on the same target restores the whole state
      (the target has an undo stack in every valid state). */
  lemma RedoThenUndo(r: Registry, id: Option<string>)
    requires CanRedo(r, id) && Target(r, id).value in r.past
    ensures CanUndo(Redone(r, id), id)
    ensures Undone(Redone(r, id), id) == r
  {
    var k := Target(r, id).value;
    var s := Redone(r, id);
    var future := r.future[k];
    assert Target(s, id) == Target(r, id);
    assert [future[0]] + future[1..] == future;
    RestoreEntry(r.drawings, k, r.drawings[k].(lines := future[0]));
    RestoreEntry(r.past, k, r.past[k] + [r.drawings[k].lines]);
    RestoreEntry(r.future, k, future[1..]);
  }

  /** The undo stack, the current lines and the redo stack of a drawing,
      read in that order. */
  function Timeline(r: Registry, k: string): seq<seq<Line>>
    requires k in r.drawings
  {
    Entries(r.past, k) + [r.drawings[k].lines] + Entries(r.future, k)
  }

  /** Undo only moves the cursor of each drawing's timeline. */
  lemma UndoKeepsTimeline(r: Registry, id: Option<string>, k: string)
    requires k in r.drawings
    ensures k in Undone(r, id).drawings && Timeline(Undone(r, id), k) == Timeline(r, k)
  {
    if CanUndo(r, id) && Target(r, id).value == k {
      var past := r.past[k];
      assert past == past[..|past| - 1] + [past[|past| - 1]];
    }
  }

  /** Redo only moves the cursor of each drawing's timeline. */
  lemma RedoKeepsTimeline(r: Registry, id: Option<string>, k: string)
    requires k in r.drawings
    ensures k in Redone(r, id).drawings && Timeline(Redone(r, id), k) == Timeline(r, k)
  {
    if CanRedo(r, id) && Target(r, id).value == k {
      var future := Entries(r.future, k);
      assert future == [future[0]] + future[1..];
    }
  }

  // ---------------------------------------------------------------------
  // The store
  // ---------------------------------------------------------------------

  class DrawingsRegistry {
    var drawings: map<string, Drawing>
    var activeDrawingId: Option<string>
    var drawingOrder: seq<string>
    var past: Histories
    var future: Histories

    function State(): Registry
      reads this
    {
      Registry(drawings, activeDrawingId, drawingOrder, past, future)
    }

    constructor()
      ensures State() == Initial()
    {
      drawings := map[DefaultDrawingId := DefaultDrawing()];
      activeDrawingId := Some(DefaultDrawingId);
      drawingOrder := [DefaultDrawingId];
      past := map[DefaultDrawingId := []];
      future := map[DefaultDrawingId := []];
    }

    method AddDrawing(drawing: Drawing)
      modifies this
      ensures State() == Added(old(State()), drawing)
    {
      var updatedPast := past;
      var updatedFuture := future;
      updatedPast := updatedPast[drawing.id := []];
      updatedFuture := updatedFuture[drawing.id := []];
      drawings := drawings[drawing.id := drawing];
      drawingOrder := drawingOrder + [drawing.id];
      past := updatedPast;
      future := updatedFuture;
    }

    method RemoveDrawing(id: string)
      modifies this
      ensures State() == Removed(old(State()), id)
    {
      if id == DefaultDrawingId {
        return;
      }
      var newOrder := Without(drawingOrder, id);
      var newActiveId := if activeDrawingId == Some(id) then Some(DefaultDrawingId) else activeDrawingId;
      drawings := drawings - {id};
      drawingOrder := newOrder;
      activeDrawingId := newActiveId;
      past := past - {id};
      future := future - {id};
    }

    method SetActiveDrawing(id: string)
      modifies this
      ensures State() == Activated(old(State()), id)
    {
      if id !in drawings {
        return;
      }
      activeDrawingId := Some(id);
    }

    method UpdateDrawingLines(id: string, lines: seq<Line>)
      modifies this
      ensures State() == LinesUpdated(old(State()), id, lines)
    {
      if id !in drawings {
        return;
      }
      var currentLines := drawings[id].lines;
      var updatedPast := past;
      if id !in updatedPast {
        updatedPast := updatedPast[id := []];
      }
      updatedPast := updatedPast[id := updatedPast[id] + [currentLines]];
      if |updatedPast[id]| > HistoryCap {
        updatedPast := updatedPast[id := updatedPast[id][|updatedPast[id]| - HistoryCap..]];
      }
      var updatedFuture := future[id := []];
      drawings := drawings[id := drawings[id].(lines := lines)];
      past := updatedPast;
      future := updatedFuture;
    }

    method ClearAll()
      modifies this
      ensures State() == Initial()
    {
      drawings := map[DefaultDrawingId := DefaultDrawing()];
      activeDrawingId := Some(DefaultDrawingId);
      drawingOrder := [DefaultDrawingId];
      past := map[DefaultDrawingId := []];
      future := map[DefaultDrawingId := []];
    }

    method Undo(id: Option<string>)
      modifies this
      ensures State() == Undone(old(State()), id)
    {
      var drawingId := if id.Some? && id.value != "" then id else activeDrawingId;
      if drawingId.None? || drawingId.value == "" || drawingId.value !in drawings {
        return;
      }
      var k := drawingId.value;
      if k !in past || |past[k]| == 0 {
        return;
      }
      var stack := past[k];
      var previousLines := stack[|stack| - 1];
      var currentLines := drawings[k].lines;
      var updatedFuture := future;
      if k !in updatedFuture {
        updatedFuture := updatedFuture[k := []];
      }
      updatedFuture := updatedFuture[k := [currentLines] + updatedFuture[k]];
      var updatedPast := past[k := stack[..|stack| - 1]];
      drawings := drawings[k := drawings[k].(lines := previousLines)];
      past := updatedPast;
      future := updatedFuture;
    }

    method Redo(id: Option<string>)
      modifies this
      ensures State() == Redone(old(State()), id)
    {
      var drawingId := if id.Some? && id.value != "" then id else activeDrawingId;
      if drawingId.None? || drawingId.value == "" || drawingId.value !in drawings {
        return;
      }
      var k := drawingId.value;
      if k !in future || |future[k]| == 0 {
        return;
      }
      var stack := future[k];
      var nextLines := stack[0];
      var currentLines := drawings[k].lines;
      var updatedPast := past;
      if k !in updatedPast {
        updatedPast := updatedPast[k := []];
      }
      updatedPast := updatedPast[k := updatedPast[k] + [currentLines]];
      var updatedFuture := future[k := stack[1..]];
      drawings := drawings[k := drawings[k].(lines := nextLines)];
      past := updatedPast;
      future := updatedFuture;
    }

    /** Some registered drawing of the given type, or None when there is
        none.  Which one is returned when several qualify is left open. */
    method GetDrawingByType(kind: DrawingType) returns (r: Option<Drawing>)
      ensures r.Some? ==> r.value.kind == kind && r.value in drawings.Values
      ensures r.None? <==> forall k :: k in drawings ==> drawings[k].kind != kind
    {
      var keys := drawings.Keys;
      while keys != {}
        invariant keys <= drawings.Keys
        invariant forall k :: k in drawings && k !in keys ==> drawings[k].kind != kind
        decreases keys
      {
        var k :| k in keys;
        if drawings[k].kind == kind {
          return Some(drawings[k]);
        }
        keys := keys - {k};
      }
      return None;
    }
  }
}
