/**
 * The page state of static/script.js as one session object: the `drawing`
 * flag, the `history` undo log, the canvas raster, the 2D context's current
 * path and the text of the result element, updated by the event handlers.
 */
module Sketchpad {
  import opened Options
  import opened History
  import opened Canvas
  import opened Submit

  class Session {
    /** True between pointer-down and pointer-up/leave. */
    var drawing: bool
    /** Snapshots for undo, oldest first; the last one is the committed canvas. */
    var history: seq<Raster>
    /** What the canvas currently shows. */
    var raster: Raster
    /** The segments of the context's current path since the last beginPath. */
    var path: seq<Segment>
    /** The current point of that path; None before any path was begun. */
    var pen: Option<Point>
    /** textContent of the result element. */
    var message: string

    /**
     * The log is never empty and never over the cap, and whenever no stroke
     * is in progress the canvas is exactly the newest snapshot.
     */
    ghost predicate Valid()
      reads this
    {
      1 <= |history| <= MaxHistory &&
      (!drawing ==> raster == history[|history| - 1])
    }

    /** Page load: resetCanvas(); saveState(); with the page's initial result text. */
    constructor (initialMessage: string)
      ensures Valid()
      ensures !drawing && raster == Blank && history == [Blank]
      ensures path == [] && pen == None && message == initialMessage
    {
      drawing := false;
      history := [];
      raster := Blank;
      path := [];
      pen := None;
      message := initialMessage;
      new;
      ResetCanvas();
      SaveState();
    }

    /** resetCanvas: fill the canvas white; the current path is kept. */
    method ResetCanvas()
      modifies this`raster
      ensures raster == Blank
    {
      raster := Blank;
    }

    /** saveState: push a snapshot of the canvas and evict the oldest entry past the cap. */
    method SaveState()
      requires |history| <= MaxHistory
      modifies this`history
      ensures history == Pushed(old(history), raster)
      ensures Valid()
    {
      history := history + [raster];
      if |history| > MaxHistory {
        history := history[1..];
      }
    }

    /**
     * startDraw: always enters the drawing state, then begins a new path at
     * the event position. When getPos throws, the path is left as it was.
     */
    method StartDraw(evt: PointerEvent, rect: Rect)
      requires Valid()
      modifies this`drawing, this`path, this`pen
      ensures Valid() && drawing
      ensures GetPos(evt, rect).Some? ==> path == [] && pen == GetPos(evt, rect)
      ensures GetPos(evt, rect).None? ==> path == old(path) && pen == old(pen)
    {
      drawing := true;
      var pos := GetPos(evt, rect);
      if pos.Some? {
        path := [];
        pen := pos;
      }
    }

    /**
     * moveDraw: outside a stroke nothing happens; inside one, a line to the
     * event position is added to the path and the whole path is stroked.
     * A lineTo with no current point only sets one.
     */
    method MoveDraw(evt: PointerEvent, rect: Rect)
      requires Valid()
      modifies this`path, this`pen, this`raster
      ensures Valid()
      ensures !drawing || GetPos(evt, rect).None? ==>
        path == old(path) && pen == old(pen) && raster == old(raster)
      ensures drawing && GetPos(evt, rect).Some? ==>
        pen == GetPos(evt, rect) &&
        path == old(path) + (if old(pen).Some? then [Segment(old(pen).value, pen.value)] else []) &&
        raster == old(raster) + Ink(path)
    ensures drawing && GetPos(evt, rect).Some? && old(pen).Some? && old(pen) != pen ==>
        old(raster) <= raster && Segment(old(pen).value, pen.value) in raster
    {
      if !drawing {
        return;
      }
      var pos := GetPos(evt, rect);
      if pos.None? {
        return;
      }
      if pen.Some? {
        path := path + [Segment(pen.value, pos.value)];
      }
      pen := pos;
      raster := raster + Ink(path);
    }

    /** endDraw: leaving a stroke commits exactly one snapshot; otherwise nothing happens. */
    method EndDraw()
      requires Valid()
      modifies this`drawing, this`history
      ensures Valid() && !drawing
      ensures old(drawing) ==> history == Pushed(old(history), raster)
      ensures !old(drawing) ==> history == old(history)
    {
      if !drawing {
        return;
      }
      drawing := false;
      SaveState();
    }

    /** The clear button: a white canvas, one more snapshot, and a notice. */
    method Clear()
      requires Valid()
      modifies this`raster, this`history, this`message
      ensures Valid()
      ensures raster == Blank && history == Pushed(old(history), Blank)
      ensures message == "Canvas cleared"
    {
      ResetCanvas();
      SaveState();
      message := "Canvas cleared";
    }

    /**
     * The undo button: with one snapshot left nothing changes; otherwise the
     * top snapshot is popped and the canvas repainted from the new top.
     */
    method Undo()
      requires Valid()
      modifies this`history, this`raster, this`message
      ensures Valid()
      ensures |old(history)| <= 1 ==>
        history == old(history) && raster == old(raster) && message == old(message)
      ensures |old(history)| > 1 ==>
        history == Undone(old(history)) && raster == history[|history| - 1] &&
        message == "Last stroke undone"
    {
      if |history| <= 1 {
        return;
      }
      history := history[..|history| - 1];
      var prev := history[|history| - 1];
      ResetCanvas();
      raster := prev;
      message := "Last stroke undone";
    }

    /**
     * The submit button: the result text ends as the reply chosen for the
     * request's outcome; the answer says whether the burst fires. Nothing but
     * the result text changes.
     */
    method OnSubmit(o: Outcome) returns (celebrated: bool)
      requires Valid()
      modifies this`message
      ensures Valid()
      ensures message == SubmitReply(o).text && celebrated == SubmitReply(o).celebrate
    {
      message := "Predicting\U{2026}";
      var reply := SubmitReply(o);
      message := reply.text;
      celebrated := reply.celebrate;
    }
  }
}
