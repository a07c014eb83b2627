/**
 * Cursor bookkeeping of the plugin (main.ts, registerCursorPosition).
 *
 * The status bar shows the pointer's position while it moves over a page,
 * and each mouseup puts on the clipboard the annotation arguments
 * `W(x0), H(y0), W(dx), H(dy)`: the point of the previous mouseup and the
 * displacement from it to this one. Turning a number into text is
 * JavaScript's own conversion, which the model takes as the abstract `format`.
 */
module Cursor {

  import Annotation

  /** A pointer position, in the coordinates the page's mouse events report. */
  datatype Point = Point(x: real, y: real)

  /** The point remembered before the first mouseup. */
  const ORIGIN: Point := Point(0.0, 0.0)

  /** What one mouseup emits: the previous point and the displacement since. */
  datatype Snippet = Snippet(start: Point, delta: Point)

  /** The point a snippet reaches: its start moved by its displacement. */
  function End(s: Snippet): Point
  {
    Point(s.start.x + s.delta.x, s.start.y + s.delta.y)
  }

  /** The clipboard text of a snippet. */
  function Text(s: Snippet, format: real -> string): string
  {
    "W(" + format(s.start.x) + "), H(" + format(s.start.y) + "), W("
      + format(s.delta.x) + "), H(" + format(s.delta.y) + ")"
  }

  /** The status bar text while the pointer is at (xp, yp). */
  function StatusText(xp: real, yp: real, format: real -> string): string
  {
    "[" + format(xp) + "," + format(yp) + "]"
  }

  /** The remembered point after the mouseups at `points`. */
  function Last(points: seq<Point>): Point
  {
    if points == [] then ORIGIN else points[|points| - 1]
  }

  /** The snippet a mouseup at `q` emits after the mouseups at `points`. */
  function NextSnippet(points: seq<Point>, q: Point): Snippet
  {
    Snippet(Last(points), Point(q.x - Last(points).x, q.y - Last(points).y))
  }

  /** The snippets that the mouseups at `points` emit, in order. */
  function Snippets(points: seq<Point>): (r: seq<Snippet>)
    ensures |r| == |points|
  {
    if points == [] then []
    else Snippets(points[..|points| - 1]) + [NextSnippet(points[..|points| - 1], points[|points| - 1])]
  }

  /**
   * Mouseups chain: the first snippet starts at the origin, each later one at
   * the point of the mouseup before it, and every snippet ends at its own
   * mouseup's point.
   */
  lemma {:induction false} SnippetsChain(points: seq<Point>, i: nat)
    requires i < |points|
    ensures Snippets(points)[i].start == if i == 0 then ORIGIN else points[i - 1]
    ensures End(Snippets(points)[i]) == points[i]
    decreases |points|
  {
    var init := points[..|points| - 1];
    if i < |points| - 1 {
      SnippetsChain(init, i);
      assert init[i] == points[i];
      assert i > 0 ==> init[i - 1] == points[i - 1];
    } else if i > 0 {
      assert Last(init) == points[i - 1];
    }
  }

  /** The sum of the displacements of `snippets`. */
  function TotalDelta(snippets: seq<Snippet>): Point
  {
    if snippets == [] then ORIGIN
    else
      var rest := TotalDelta(snippets[..|snippets| - 1]);
      var d := snippets[|snippets| - 1].delta;
      Point(rest.x + d.x, rest.y + d.y)
  }

  /** The displacements telescope: together they lead from the origin to the remembered point. */
  lemma {:induction false} DeltasTelescope(points: seq<Point>)
    ensures TotalDelta(Snippets(points)) == Last(points)
    decreases |points|
  {
    if points != [] {
      var init := points[..|points| - 1];
      DeltasTelescope(init);
      assert Snippets(points)[..|points| - 1] == Snippets(init);
    }
  }

  /**
   * Pasted into a script, the snippet's first and second W (and H) add up to
   * the released point when all three values are fractions of the canvas: a
   * rectangle drawn from the snippet spans from the previous point to this one.
   */
  lemma SnippetSpansToRelease(s: Annotation.Scope, snippet: Snippet)
    requires 0.0 < snippet.start.x < 1.0 && 0.0 < snippet.delta.x && End(snippet).x < 1.0
    requires 0.0 < snippet.start.y < 1.0 && 0.0 < snippet.delta.y && End(snippet).y < 1.0
    ensures Annotation.W(s, snippet.start.x) + Annotation.W(s, snippet.delta.x) == Annotation.W(s, End(snippet).x)
    ensures Annotation.H(s, snippet.start.y) + Annotation.H(s, snippet.delta.y) == Annotation.H(s, End(snippet).y)
  {
    Annotation.FractionsAdd(s, snippet.start.x, snippet.delta.x);
    Annotation.FractionsAdd(s, snippet.start.y, snippet.delta.y);
  }

  /** The status bar item and the point remembered between mouseups. */
  class CursorTracker {
    var lastX: real
    var lastY: real
    var status: string
    /** JavaScript's number-to-text conversion, as the template strings apply it. */
    const format: real -> string
    /** The points of all mouseups so far, oldest first. */
    ghost var ups: seq<Point>

    /** The remembered point is that of the latest mouseup, or the origin before any. */
    ghost predicate Valid()
      reads this
    {
      Point(lastX, lastY) == Last(ups)
    }

    constructor(format: real -> string)
      ensures Valid() && ups == []
      ensures lastX == 0.0 && lastY == 0.0 && status == ""
      ensures this.format == format
    {
      lastX, lastY := 0.0, 0.0;
      status := "";
      this.format := format;
      ups := [];
    }

    /** `slidenote:mousemove`: shows the position; the remembered point is untouched. */
    method MouseMove(xp: real, yp: real)
      requires Valid()
      modifies this`status
      ensures Valid()
      ensures status == StatusText(xp, yp, format)
      ensures lastX == old(lastX) && lastY == old(lastY) && ups == old(ups)
    {
      status := "[" + format(xp) + "," + format(yp) + "]";
    }

    /**
     * `slidenote:mouseup`: emits the snippet from the remembered point to
     * (xp, yp), then remembers (xp, yp).
     */
    method MouseUp(xp: real, yp: real) returns (clip: string)
      requires Valid()
      modifies this`lastX, this`lastY, this`ups
      ensures Valid()
      ensures ups == old(ups) + [Point(xp, yp)]
      ensures lastX == xp && lastY == yp && status == old(status)
      ensures clip == Text(Snippet(Point(old(lastX), old(lastY)), Point(xp - old(lastX), yp - old(lastY))), format)
      ensures clip == Text(Snippets(ups)[|ups| - 1], format)
    {
      clip := "W(" + format(lastX) + "), H(" + format(lastY) + "), W("
        + format(xp - lastX) + "), H(" + format(yp - lastY) + ")";
      ghost var before := ups;
      lastX := xp;
      lastY := yp;
      ups := ups + [Point(xp, yp)];
      assert ups[..|ups| - 1] == before;
    }

    /** `slidenote:mouseleave`: clears the status; the remembered point is untouched. */
    method MouseLeave()
      requires Valid()
      modifies this`status
      ensures Valid()
      ensures status == ""
      ensures lastX == old(lastX) && lastY == old(lastY) && ups == old(ups)
    {
      status := "";
    }
  }
}
