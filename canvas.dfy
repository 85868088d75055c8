/**
 * The drawing surface of static/script.js, kept abstract: a raster is the set
 * of line segments inked in the stroke colour over the white background, so
 * the blank raster is the empty set and re-stroking a path changes nothing.
 */
module Canvas {
  import opened Options

  /** A position in CSS pixels. */
  datatype Point = Point(x: real, y: real)

  /** The part of the canvas's bounding client rect that getPos reads. */
  datatype Rect = Rect(left: real, top: real)

  /** One contact point of a touch event. */
  datatype Touch = Touch(clientX: real, clientY: real)

  /** The events the canvas listens to: mouse events, and touch events with their touch list. */
  datatype PointerEvent =
    | MouseInput(clientX: real, clientY: real)
    | TouchInput(touches: seq<Touch>)

  /** A straight piece of a path, from its start point to its end point. */
  datatype Segment = Segment(from: Point, to: Point)

  /** Everything inked on the canvas; a snapshot of the canvas is such a value. */
  type Raster = set<Segment>

  /** resetCanvas paints the whole canvas white. */
  const Blank: Raster := {}

  /**
   * The viewport position an event reports: the mouse position, or the first
   * touch when the event carries a touch list. A touch list that is empty has
   * no first touch, and reading its coordinates throws.
   */
  function ClientPoint(evt: PointerEvent): Option<Point>
  {
    match evt
    case MouseInput(cx, cy) => Some(Point(cx, cy))
    case TouchInput(ts) => if |ts| > 0 then Some(Point(ts[0].clientX, ts[0].clientY)) else None
  }

  /**
   * getPos: the event position relative to the canvas's top-left corner.
   * None stands for the TypeError thrown on an empty touch list.
   */
  function GetPos(evt: PointerEvent, rect: Rect): (r: Option<Point>)
    ensures r.None? <==> evt.TouchInput? && evt.touches == []
    ensures r.Some? ==> ClientPoint(evt) == Some(Point(r.value.x + rect.left, r.value.y + rect.top))
    ensures r.Some? && evt.TouchInput? ==>
      r.value == Point(evt.touches[0].clientX - rect.left, evt.touches[0].clientY - rect.top)
  {
    match ClientPoint(evt)
    case None => None
    case Some(c) => Some(Point(c.x - rect.left, c.y - rect.top))
  }

  /**
   * What ctx.stroke() inks for a path: every segment of it except the
   * zero-length ones, which the canvas prunes before stroking.
   */
  function Ink(path: seq<Segment>): Raster
  {
    set s | s in path && s.from != s.to
  }

  /**
   * Stroking a path inks what stroking its two halves inks: each added line
   * shows up on its own, and nothing else does.
   */
  lemma InkAppend(p: seq<Segment>, q: seq<Segment>)
    ensures Ink(p + q) == Ink(p) + Ink(q)
    ensures forall s :: s in q && s.from != s.to ==> s in Ink(p + q)
  {
    forall s | s in Ink(p + q) ensures s in Ink(p) + Ink(q) {
      assert s in p + q;
    }
  }
}
