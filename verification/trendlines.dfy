/** Trendlines drawn over the price chart: the list the chart keeps, and
    the mouse gesture that draws one.

    A new trendline's id is built from the clock and a random number; here
    it is a parameter. Ids are compared as strings, so removing an id
    removes every line that carries it.
 */
module Trendlines {
  import opened Wrappers

  /** Two points in the chart's pixel coordinates. */
  datatype Segment = Segment(startX: real, startY: real, endX: real, endY: real)

  datatype Trendline = Trendline(id: string, line: Segment)

  function Ids(ls: seq<Trendline>): (ids: set<string>)
    ensures forall t | t in ls :: t.id in ids
    ensures forall id | id in ids :: exists t | t in ls :: t.id == id
  {
    set t | t in ls :: t.id
  }

  /** `addTrendline`: append the segment under the given id. */
  function AddTrendline(ls: seq<Trendline>, line: Segment, id: string): (r: seq<Trendline>)
    ensures |r| == |ls| + 1
    ensures r[..|ls|] == ls && r[|ls|] == Trendline(id, line)
  {
    ls + [Trendline(id, line)]
  }

  /** `removeTrendline`: keep, in order, the lines whose id differs. */
  function RemoveTrendline(ls: seq<Trendline>, id: string): (r: seq<Trendline>)
    ensures |r| <= |ls|
    ensures forall t | t in r :: t.id != id
    ensures forall t | t in ls && t.id != id :: t in r
    ensures forall t | t in r :: t in ls
  {
    if ls == [] then []
    else if ls[0].id == id then RemoveTrendline(ls[1..], id)
    else [ls[0]] + RemoveTrendline(ls[1..], id)
  }

  /** Removing is idempotent. */
  lemma {:induction false} RemoveIdempotent(ls: seq<Trendline>, id: string)
    ensures RemoveTrendline(RemoveTrendline(ls, id), id) == RemoveTrendline(ls, id)
  {
    if ls != [] {
      RemoveIdempotent(ls[1..], id);
    }
  }

  /** Removing an id that no line carries changes nothing. */
  lemma {:induction false} RemoveAbsent(ls: seq<Trendline>, id: string)
    requires id !in Ids(ls)
    ensures RemoveTrendline(ls, id) == ls
  {
    if ls != [] {
      assert ls[0] in ls;
      assert Ids(ls[1..]) <= Ids(ls) by {
        forall x | x in Ids(ls[1..]) ensures x in Ids(ls) {
          var t :| t in ls[1..] && t.id == x;
          assert t in ls;
        }
      }
      RemoveAbsent(ls[1..], id);
    }
  }

  /** Removal distributes over appending. */
  lemma {:induction false} RemoveAppend(a: seq<Trendline>, b: seq<Trendline>, id: string)
    ensures RemoveTrendline(a + b, id) == RemoveTrendline(a, id) + RemoveTrendline(b, id)
  {
    if a != [] {
      assert (a + b)[1..] == a[1..] + b;
      RemoveAppend(a[1..], b, id);
    } else {
      assert a + b == b;
    }
  }

  /** Adding a line under a fresh id and then removing that id gives back
      the list as it was. */
  lemma AddThenRemove(ls: seq<Trendline>, line: Segment, id: string)
    requires id !in Ids(ls)
    ensures RemoveTrendline(AddTrendline(ls, line, id), id) == ls
  {
    RemoveAppend(ls, [Trendline(id, line)], id);
    RemoveAbsent(ls, id);
    assert [Trendline(id, line)][1..] == [];
  }

  /** Removing one id leaves the lines of another id where they were. */
  lemma {:induction false} RemoveCommutes(ls: seq<Trendline>, a: string, b: string)
    ensures RemoveTrendline(RemoveTrendline(ls, a), b) == RemoveTrendline(RemoveTrendline(ls, b), a)
  {
    if ls != [] {
      RemoveCommutes(ls[1..], a, b);
    }
  }

  /** `clearAllTrendlines`. */
  function ClearAll(ls: seq<Trendline>): (r: seq<Trendline>)
    ensures r == []
  {
    []
  }

  /** The "Clear All" button is shown only when there is something to
      clear. */
  predicate ClearAllShown(ls: seq<Trendline>) {
    |ls| > 0
  }

  /** Adding a line always shows the button; clearing always hides it. */
  lemma ClearAllButton(ls: seq<Trendline>, line: Segment, id: string)
    ensures ClearAllShown(AddTrendline(ls, line, id))
    ensures !ClearAllShown(ClearAll(ls))
  {
  }

  // ---------------------------------------------------------------------
  // The drawing gesture

  /** The drawing tool's state: whether drawing mode is on, whether a
      gesture is under way, and the line being drawn. */
  datatype Tool = Tool(drawingMode: bool, isDrawing: bool, currentLine: Option<Segment>)

  const InitialTool: Tool := Tool(false, false, None)

  /** Lines no longer than 20 pixels are dropped. */
  const MinLength: real := 20.0

  function SquaredLength(s: Segment): (d: real)
    ensures d >= 0.0
  {
    (s.endX - s.startX) * (s.endX - s.startX) + (s.endY - s.startY) * (s.endY - s.startY)
  }

  /** `Math.sqrt(dx² + dy²) > 20`, compared squared: for a non-negative
      square both sides are monotone. */
  predicate LongEnough(s: Segment) {
    SquaredLength(s) > MinLength * MinLength
  }

  /** The "Draw Trendlines" button: toggle drawing mode, nothing else. */
  function ToggleDrawingMode(t: Tool): (u: Tool)
    ensures u.drawingMode == !t.drawingMode
    ensures u.isDrawing == t.isDrawing && u.currentLine == t.currentLine
  {
    t.(drawingMode := !t.drawingMode)
  }

  /** `handleMouseDown` at `(x, y)` relative to the chart: in drawing mode,
      start a zero-length line there; otherwise nothing. */
  function MouseDown(t: Tool, x: real, y: real): (u: Tool)
    ensures !t.drawingMode ==> u == t
    ensures t.drawingMode ==> u == Tool(true, true, Some(Segment(x, y, x, y)))
  {
    if !t.drawingMode then t else Tool(t.drawingMode, true, Some(Segment(x, y, x, y)))
  }

  /** `handleMouseMove`: during a gesture, move the line's end; otherwise
      nothing. */
  function MouseMove(t: Tool, x: real, y: real): (u: Tool)
    ensures !t.isDrawing || t.currentLine.None? ==> u == t
    ensures t.isDrawing && t.currentLine.Some? ==>
      u.drawingMode == t.drawingMode && u.isDrawing
      && u.currentLine == Some(t.currentLine.value.(endX := x, endY := y))
  {
    if !t.isDrawing || t.currentLine.None? then t
    else t.(currentLine := Some(t.currentLine.value.(endX := x, endY := y)))
  }

  /** `handleMouseUp`, also bound to the mouse leaving the chart: end the
      gesture and hand the line over to be added when it is long enough. */
  function MouseUp(t: Tool): (r: (Tool, Option<Segment>))
    ensures !t.isDrawing || t.currentLine.None? ==> r == (t, None)
    ensures t.isDrawing && t.currentLine.Some? ==>
      && r.0 == Tool(t.drawingMode, false, None)
      && (r.1.Some? <==> LongEnough(t.currentLine.value))
      && (r.1.Some? ==> r.1.value == t.currentLine.value)
  {
    if !t.isDrawing || t.currentLine.None? then (t, None)
    else (Tool(t.drawingMode, false, None), if LongEnough(t.currentLine.value) then Some(t.currentLine.value) else None)
  }

  /** A gesture is under way exactly when there is a line being drawn. */
  predicate Consistent(t: Tool) {
    t.isDrawing <==> t.currentLine.Some?
  }

  /** Every event keeps the tool consistent. */
  lemma EventsPreserveConsistency(t: Tool, x: real, y: real)
    requires Consistent(t)
    ensures Consistent(ToggleDrawingMode(t))
    ensures Consistent(MouseDown(t, x, y))
    ensures Consistent(MouseMove(t, x, y))
    ensures Consistent(MouseUp(t).0)
  {
  }

  /** A whole gesture in drawing mode — press, drag, release — adds the
      line from the press to the last drag point exactly when it is longer
      than 20 pixels, and leaves the tool idle in drawing mode. */
  lemma DrawGesture(t: Tool, x0: real, y0: real, x1: real, y1: real)
    requires t.drawingMode
    ensures var r := MouseUp(MouseMove(MouseDown(t, x0, y0), x1, y1));
      && r.0 == Tool(true, false, None)
      && (r.1.Some? <==> LongEnough(Segment(x0, y0, x1, y1)))
      && (r.1.Some? ==> r.1.value == Segment(x0, y0, x1, y1))
  {
  }

  /** Outside drawing mode a press starts nothing, so the release adds
      nothing. */
  lemma NoDrawingOutsideMode(t: Tool, x0: real, y0: real, x1: real, y1: real)
    requires !t.drawingMode && Consistent(t) && !t.isDrawing
    ensures MouseUp(MouseMove(MouseDown(t, x0, y0), x1, y1)).1.None?
  {
  }
}
