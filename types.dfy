/** The value types shared by the drawing tool: points, polylines and the
    fold information attached to a polyline's ends. */
module Types {
  import opened HostMath

  datatype Option<T> = None | Some(value: T)

  /** A canvas position in pixels. */
  datatype Point = Point(x: real, y: real)

  /** One segment of an end fold: its length and its angle in degrees. */
  datatype SegmentEdit = SegmentEdit(length: real, angle: real)

  /** The fold attached to one end of a polyline: the chosen template, the
      edited segments keyed by their index, and the fold direction. */
  datatype FoldEndpointInfo = FoldEndpointInfo(
    selectedId: string,
    segmentEdits: map<nat, SegmentEdit>,
    direction: string)

  /** A polyline.  `labelPositions` holds the user's drag offsets of the
      segment labels and `angleLabelPositions` those of the angle labels
      (a slot may be empty); both are optional, as are the two end folds. */
  datatype Line = Line(
    id: string,
    points: seq<Point>,
    color: string,
    labelPositions: Option<seq<Point>>,
    angleLabelPositions: Option<seq<Option<Point>>>,
    startFold: Option<FoldEndpointInfo>,
    endFold: Option<FoldEndpointInfo>)

  /** A line holding only its identity, colour and points. */
  function PlainLine(id: string, points: seq<Point>, color: string): Line
  {
    Line(id, points, color, None, None, None, None)
  }

  /** Squared Euclidean distance. */
  function SqDist(p: Point, q: Point): real
  {
    SumSq(q.x - p.x, q.y - p.y)
  }

  /** The displacement from p to q. */
  function Diff(p: Point, q: Point): Point
  {
    Point(q.x - p.x, q.y - p.y)
  }
}
