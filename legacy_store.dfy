/** The legacy drawing store: finished lines plus the line being drawn.
    Ending a line commits it only when it has at least two points. */
module LegacyStore {
  import opened Types

  /** The colour of a line committed by `endLine`. */
  const LineColor := "#60a5fa"

  datatype Sketch = Sketch(lines: seq<Line>, currentLine: seq<Point>)

  function Started(s: Sketch, p: Point): Sketch
  {
    s.(currentLine := [p])
  }

  function PointAdded(s: Sketch, p: Point): Sketch
  {
    s.(currentLine := s.currentLine + [p])
  }

  /** `endLine`; `newId` is the clock-derived id the line receives. */
  function Ended(s: Sketch, newId: string): Sketch
  {
    if |s.currentLine| > 1 then Sketch(s.lines + [PlainLine(newId, s.currentLine, LineColor)], [])
    else s.(currentLine := [])
  }

  function Cleared(s: Sketch): Sketch
  {
    Sketch([], [])
  }

  function LineAdded(s: Sketch, line: Line): Sketch
  {
    s.(lines := s.lines + [line])
  }

  /** A run of `addPoint` calls. */
  function PointsAdded(s: Sketch, ps: seq<Point>): Sketch
    decreases |ps|
  {
    if |ps| == 0 then s else PointsAdded(PointAdded(s, ps[0]), ps[1..])
  }

  lemma {:induction false} PointsAddedLaws(s: Sketch, ps: seq<Point>)
    ensures PointsAdded(s, ps).currentLine == s.currentLine + ps
    ensures PointsAdded(s, ps).lines == s.lines
    decreases |ps|
  {
    if |ps| > 0 {
      PointsAddedLaws(PointAdded(s, ps[0]), ps[1..]);
      assert s.currentLine + ps == (s.currentLine + [ps[0]]) + ps[1..];
    }
  }

  /** Ending always empties the line being drawn, and adds exactly one
      line, holding the drawn points, when there were at least two of them;
      otherwise the finished lines stay as they were. */
  lemma EndedLaws(s: Sketch, newId: string)
    ensures Ended(s, newId).currentLine == []
    ensures |s.currentLine| > 1 ==>
      && |Ended(s, newId).lines| == |s.lines| + 1
      && Ended(s, newId).lines[..|s.lines|] == s.lines
      && Ended(s, newId).lines[|s.lines|].points == s.currentLine
    ensures |s.currentLine| <= 1 ==> Ended(s, newId).lines == s.lines
  {
    if |s.currentLine| > 1 {
      assert Ended(s, newId).lines[..|s.lines|] == s.lines;
    }
  }

  /** Drawing a stroke: starting at p, adding the points ps and ending
      commits a line through p and then ps exactly when ps is not empty,
      and leaves no line in progress. */
  lemma Stroke(s: Sketch, p: Point, ps: seq<Point>, newId: string)
    ensures var e := Ended(PointsAdded(Started(s, p), ps), newId);
      && e.currentLine == []
      && (|ps| > 0 ==> e.lines == s.lines + [PlainLine(newId, [p] + ps, LineColor)])
      && (|ps| == 0 ==> e.lines == s.lines)
  {
    PointsAddedLaws(Started(s, p), ps);
  }

  /** `addLine` appends and does not touch the line in progress; `clear`
      empties both. */
  lemma LineAddedLaws(s: Sketch, line: Line)
    ensures LineAdded(s, line).lines[..|s.lines|] == s.lines
    ensures |LineAdded(s, line).lines| == |s.lines| + 1 && LineAdded(s, line).lines[|s.lines|] == line
    ensures LineAdded(s, line).currentLine == s.currentLine
    ensures Cleared(s).lines == [] && Cleared(s).currentLine == []
  {
    assert LineAdded(s, line).lines[..|s.lines|] == s.lines;
  }

  class LegacyDrawingStore {
    var lines: seq<Line>
    var currentLine: seq<Point>

    function State(): Sketch
      reads this
    {
      Sketch(lines, currentLine)
    }

    constructor()
      ensures State() == Sketch([], [])
    {
      lines := [];
      currentLine := [];
    }

    method StartLine(point: Point)
      modifies this
      ensures State() == Started(old(State()), point)
    {
      currentLine := [point];
    }

    method AddPoint(point: Point)
      modifies this
      ensures State() == PointAdded(old(State()), point)
    {
      currentLine := currentLine + [point];
    }

    method EndLine(newId: string)
      modifies this
      ensures State() == Ended(old(State()), newId)
    {
      if |currentLine| > 1 {
        lines := lines + [PlainLine(newId, currentLine, LineColor)];
      }
      currentLine := [];
    }

    method Clear()
      modifies this
      ensures State() == Cleared(old(State()))
    {
      lines := [];
      currentLine := [];
    }

    method AddLine(line: Line)
      modifies this
      ensures State() == LineAdded(old(State()), line)
    {
      lines := lines + [line];
    }
  }
}
