/** The single-timeline drawing store: the current lines, a history of
    earlier snapshots and a redo stack.  Every change pushes the previous
    lines onto the history (without a cap) and empties the redo stack. */
module DrawingStore {
  import opened Types

  datatype Timeline = Timeline(lines: seq<Line>, history: seq<seq<Line>>, future: seq<seq<Line>>)

  function Empty(): Timeline
  {
    Timeline([], [], [])
  }

  /** Records the current lines and installs `next`. */
  function Commit(t: Timeline, next: seq<Line>): Timeline
  {
    Timeline(next, t.history + [t.lines], [])
  }

  function LineAdded(t: Timeline, line: Line): Timeline
  {
    Commit(t, t.lines + [line])
  }

  function Cleared(t: Timeline): Timeline
  {
    if |t.lines| == 0 then t else Commit(t, [])
  }

  function LinesSet(t: Timeline, lines: seq<Line>): Timeline
  {
    Commit(t, lines)
  }

  function Undone(t: Timeline): Timeline
  {
    if |t.history| == 0 then t
    else Timeline(t.history[|t.history| - 1], t.history[..|t.history| - 1], [t.lines] + t.future)
  }

  function Redone(t: Timeline): Timeline
  {
    if |t.future| == 0 then t
    else Timeline(t.future[0], t.history + [t.lines], t.future[1..])
  }

  /** Every snapshot in order: the history, the current lines, the redo
      stack. */
  function Snapshots(t: Timeline): seq<seq<Line>>
  {
    t.history + [t.lines] + t.future
  }

  /** A change grows the history by exactly one entry, the replaced lines,
      keeps every earlier entry, and leaves nothing to redo. */
  lemma CommitLaws(t: Timeline, next: seq<Line>)
    ensures var u := Commit(t, next);
      && u.lines == next
      && |u.history| == |t.history| + 1
      && u.history[..|t.history|] == t.history
      && u.history[|t.history|] == t.lines
      && u.future == []
  {
    var u := Commit(t, next);
    assert u.history[..|t.history|] == t.history;
  }

  /** `addLine` appends exactly the new line; `clear` is a no-op without
      lines and otherwise empties them; `setLines` installs its argument.
      Each of them that changes anything is a commit. */
  lemma ActionLaws(t: Timeline, line: Line, lines: seq<Line>)
    ensures LineAdded(t, line).lines[..|t.lines|] == t.lines
    ensures |LineAdded(t, line).lines| == |t.lines| + 1 && LineAdded(t, line).lines[|t.lines|] == line
    ensures |t.lines| == 0 ==> Cleared(t) == t
    ensures |t.lines| > 0 ==> Cleared(t).lines == [] && Cleared(t) == Commit(t, [])
    ensures LinesSet(t, lines).lines == lines
    ensures Undone(LineAdded(t, line)) == t.(future := [t.lines + [line]])
  {
    assert (t.lines + [line])[..|t.lines|] == t.lines;
    assert (t.history + [t.lines])[..|t.history|] == t.history;
  }

  /** Undo with an empty history changes nothing; otherwise the last
      history entry becomes current, the current lines go to the front of
      the redo stack, and the sequence of snapshots is unchanged. */
  lemma UndoLaws(t: Timeline)
    ensures |t.history| == 0 ==> Undone(t) == t
    ensures |t.history| > 0 ==>
      && Undone(t).lines == t.history[|t.history| - 1]
      && |Undone(t).history| == |t.history| - 1
      && Undone(t).future == [t.lines] + t.future
    ensures Snapshots(Undone(t)) == Snapshots(t)
  {
    if |t.history| > 0 {
      var h := t.history;
      assert h == h[..|h| - 1] + [h[|h| - 1]];
      calc {
        Snapshots(Undone(t));
        h[..|h| - 1] + [h[|h| - 1]] + ([t.lines] + t.future);
        h + [t.lines] + t.future;
      }
    }
  }

  /** The mirror image for redo. */
  lemma RedoLaws(t: Timeline)
    ensures |t.future| == 0 ==> Redone(t) == t
    ensures |t.future| > 0 ==>
      && Redone(t).lines == t.future[0]
      && Redone(t).history == t.history + [t.lines]
      && |Redone(t).future| == |t.future| - 1
    ensures Snapshots(Redone(t)) == Snapshots(t)
  {
    if |t.future| > 0 {
      var f := t.future;
      assert f == [f[0]] + f[1..];
      calc {
        Snapshots(Redone(t));
        (t.history + [t.lines]) + [f[0]] + f[1..];
        t.history + [t.lines] + ([f[0]] + f[1..]);
        t.history + [t.lines] + f;
      }
    }
  }

  /** Undo then redo, and redo then undo, restore the whole state. */
  lemma RoundTrips(t: Timeline)
    ensures |t.history| > 0 ==> Redone(Undone(t)) == t
    ensures |t.future| > 0 ==> Undone(Redone(t)) == t
  {
    if |t.history| > 0 {
      var h := t.history;
      assert h[..|h| - 1] + [h[|h| - 1]] == h;
    }
    if |t.future| > 0 {
      var f := t.future;
      assert [f[0]] + f[1..] == f;
    }
  }

  class DrawingTimeline {
    var lines: seq<Line>
    var history: seq<seq<Line>>
    var future: seq<seq<Line>>

    function State(): Timeline
      reads this
    {
      Timeline(lines, history, future)
    }

    constructor()
      ensures State() == Empty()
    {
      lines := [];
      history := [];
      future := [];
    }

    method AddLine(line: Line)
      modifies this
      ensures State() == LineAdded(old(State()), line)
    {
      history := history + [lines];
      lines := lines + [line];
      future := [];
    }

    method Clear()
      modifies this
      ensures State() == Cleared(old(State()))
    {
      if |lines| == 0 {
        return;
      }
      history := history + [lines];
      lines := [];
      future := [];
    }

    method SetLines(newLines: seq<Line>)
      modifies this
      ensures State() == LinesSet(old(State()), newLines)
    {
      history := history + [lines];
      lines := newLines;
      future := [];
    }

    method Undo()
      modifies this
      ensures State() == Undone(old(State()))
    {
      if |history| == 0 {
        return;
      }
      var prev := history[|history| - 1];
      future := [lines] + future;
      history := history[..|history| - 1];
      lines := prev;
    }

    method Redo()
      modifies this
      ensures State() == Redone(old(State()))
    {
      if |future| == 0 {
        return;
      }
      var next := future[0];
      history := history + [lines];
      future := future[1..];
      lines := next;
    }
  }
}
