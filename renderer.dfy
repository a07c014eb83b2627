/**
 * The render pass of a PDF block (renderer.ts, class PDFBlockRenderer).
 *
 * A render clears the block's element, fetches the file through the cache,
 * opens it, expands the "all pages" sentinel and then, page by page, appends a
 * canvas, sizes it and paints it. It asks whether the note that holds the
 * block is still the active file after the fetch, after opening the document,
 * and for each page before fetching it, before sizing its canvas and before
 * painting it, and returns early when it is not; nothing is checked before the
 * fetch or after the paint (the annotation script and the caption run
 * unguarded). Everything that the renderer obtains from outside (the cache,
 * pdf.js, the workspace's active file, the settings, the annotation script) is
 * an oracle in `Environment`.
 */
module Renderer {

  import opened Wrappers
  import Geometry
  import PageList
  import Annotation

  /** The parts of a parsed block that the renderer reads. */
  datatype Params = Params(
    file: string,
    page: seq<int>,
    rect: Geometry.Rect,
    link: bool,
    annot: string,
    note: string)

  /**
   * The points at which a render consults the active file: after the fetch,
   * after opening the document, and three times for the page at position `i`
   * of the page list (before fetching it, before sizing its canvas, before
   * painting it).
   */
  datatype Step = AfterFetch | AfterOpen | BeforePage(i: nat) | BeforeSize(i: nat) | BeforePaint(i: nat)

  /** What pdf.js reports for one page: `page.view` and the uncropped viewport's size. */
  datatype Page = Page(view: Geometry.Box, viewport: Geometry.Box)

  /**
   * An opened document: its page count, what `getPage` yields for a page number
   * (None when pdf.js rejects it) and whether painting that page succeeds.
   */
  datatype Document = Document(numPages: nat, getPage: int -> Option<Page>, paints: int -> bool)

  /**
   * What the outside world answers during one render. Whether the annotation
   * script runs without throwing may depend on the page number and on the scope
   * (`zoom`, `w`, `h`) it is called with.
   */
  datatype Environment = Environment(
    fetched: bool,
    document: Option<Document>,
    activeFile: Step -> Option<string>,
    allowAnnotations: bool,
    annotationRuns: (int, Annotation.Scope) -> bool)

  /** The failure that ends a render with an error line. */
  datatype Fault =
    | FetchFailed
    | OpenFailed
    | PageFailed(page: int)
    | PaintFailed(page: int)
    | AnnotationFailed(page: int)

  /** A child of the block's element. */
  datatype Item =
    | LoadingHook
    | Canvas(page: int, linked: bool, layout: Option<Geometry.Layout>, painted: bool, annotated: bool)
    | ErrorLine(fault: Fault)
    | Caption(note: string)

  /** How the page loop ended. */
  datatype Outcome = Completed | Stale | Failed(fault: Fault)

  /** The canvases a page loop appends, and how it ended. */
  datatype Trace = Trace(items: seq<Item>, outcome: Outcome)

  /** The renderer's state: its parameters (whose page list a render may rewrite) and its element. */
  datatype View = View(params: Option<Params>, el: seq<Item>)

  /** What `init` does: render now, arm the fallback timer, or fail reading absent parameters. */
  datatype Trigger = RenderNow | Deferred(delay: nat) | Aborted

  /**
   * `checkActiveFile`: a render may go on when no file is active, or when the
   * active file is the note that holds the block.
   */
  function CheckActiveFile(ctxFile: string, current: Option<string>): (ok: bool)
    ensures ok <==> current == None || current == Some(ctxFile)
  {
    if current.None? then true
    else if ctxFile != current.value then false
    else true
  }

  /** The staleness guard at one step of a render. */
  predicate Guard(src: string, env: Environment, step: Step)
  {
    CheckActiveFile(src, env.activeFile(step))
  }

  /** The annotation script runs after each paint when it is non-empty and allowed. */
  predicate Annotates(p: Params, env: Environment)
  {
    p.annot != "" && env.allowAnnotations
  }

  /**
   * The scope the annotation script of page `pg` is called with: the raster
   * zoom, and the extents of that page's canvas divided by it.
   */
  function PageScope(p: Params, pg: Page): (s: Annotation.Scope)
    ensures s.zoom == Geometry.ZOOM
    ensures s.w * s.zoom == Geometry.Place(p.rect, pg.view, pg.viewport).width
    ensures s.h * s.zoom == Geometry.Place(p.rect, pg.view, pg.viewport).height
  {
    var layout := Geometry.Place(p.rect, pg.view, pg.viewport);
    Annotation.Bind(layout.width, layout.height)
  }

  /**
   * One pass of the page loop, for the page at position `i`: the canvas it
   * leaves (none when it stops before `getPage` resolves) and whether the loop
   * goes on (`Completed`), returns early (`Stale`) or throws (`Failed`).
   */
  function PageTrace(p: Params, src: string, env: Environment, doc: Document, i: nat): Trace
    requires i < |p.page|
  {
    var n := p.page[i];
    if !Guard(src, env, BeforePage(i)) then Trace([], Stale)
    else match doc.getPage(n)
      case None => Trace([], Failed(PageFailed(n)))
      case Some(pg) =>
        var bare := Canvas(n, p.link, None, false, false);
        if !Guard(src, env, BeforeSize(i)) then Trace([bare], Stale)
        else
          var sized := bare.(layout := Some(Geometry.Place(p.rect, pg.view, pg.viewport)));
          if !Guard(src, env, BeforePaint(i)) then Trace([sized], Stale)
          else if !doc.paints(n) then Trace([sized], Failed(PaintFailed(n)))
          else
            var painted := sized.(painted := true);
            if Annotates(p, env) && !env.annotationRuns(n, PageScope(p, pg)) then
              Trace([painted], Failed(AnnotationFailed(n)))
            else
              Trace([painted.(annotated := Annotates(p, env))], Completed)
  }

  /**
   * One pass leaves at most the canvas of its own page; a pass that goes on
   * has passed all three guards and left that canvas finished.
   */
  lemma PageTraceShape(p: Params, src: string, env: Environment, doc: Document, i: nat)
    requires i < |p.page|
    ensures var t := PageTrace(p, src, env, doc, i);
      && |t.items| <= 1
      && (forall j :: 0 <= j < |t.items| ==>
            t.items[j].Canvas? && t.items[j].page == p.page[i] && t.items[j].linked == p.link)
      && (t.outcome == Completed ==>
            |t.items| == 1 && Done(t.items[0], p, env, doc) &&
            Guard(src, env, BeforePage(i)) && Guard(src, env, BeforeSize(i)) && Guard(src, env, BeforePaint(i)))
  {
  }

  /** The page loop from position `i` of the page list on. */
  function PagesFrom(p: Params, src: string, env: Environment, doc: Document, i: nat): Trace
    requires i <= |p.page|
    decreases |p.page| - i
  {
    if i == |p.page| then Trace([], Completed)
    else
      var t := PageTrace(p, src, env, doc, i);
      if t.outcome != Completed then t
      else
        var rest := PagesFrom(p, src, env, doc, i + 1);
        Trace(t.items + rest.items, rest.outcome)
  }

  /** What follows the canvases: the caption on completion, an error line on failure. */
  function Finish(t: Trace, note: string): seq<Item>
  {
    t.items + match t.outcome
      case Completed => [Caption(note)]
      case Stale => []
      case Failed(f) => [ErrorLine(f)]
  }

  /** The state after one render that starts from parameters `params`. */
  function RenderSpec(params: Option<Params>, src: string, env: Environment): View
  {
    match params
    case None => View(params, [])
    case Some(p) =>
      if !env.fetched then View(params, [ErrorLine(FetchFailed)])
      else if !Guard(src, env, AfterFetch) then View(params, [])
      else match env.document
        case None => View(params, [ErrorLine(OpenFailed)])
        case Some(doc) =>
          if !Guard(src, env, AfterOpen) then View(params, [])
          else
            var q := p.(page := PageList.Expand(p.page, doc.numPages));
            View(Some(q), Finish(PagesFrom(q, src, env, doc, 0), q.note))
  }

  /** `init`: render at once when the loading hook is laid out, else arm the timer. */
  function InitialTrigger(bottom: real, params: Option<Params>): (t: Trigger)
    ensures t.RenderNow? <==> bottom != 0.0
    ensures t.Deferred? <==> bottom == 0.0 && params.Some?
    ensures t.Deferred? ==> t.delay == PageList.TimerDelay(params.value.page)
  {
    if bottom != 0.0 then RenderNow
    else if params.None? then Aborted
    else Deferred(PageList.TimerDelay(params.value.page))
  }

  /** The page numbers of the canvases among `items`, in order. */
  function CanvasPages(items: seq<Item>): seq<int>
  {
    if items == [] then []
    else (if items[0].Canvas? then [items[0].page] else []) + CanvasPages(items[1..])
  }

  /** A canvas that the loop has sized and painted, and annotated when asked to. */
  predicate Done(item: Item, p: Params, env: Environment, doc: Document)
  {
    item.Canvas? && item.painted && item.annotated == Annotates(p, env) &&
    match doc.getPage(item.page)
    case None => false
    case Some(pg) => item.layout == Some(Geometry.Place(p.rect, pg.view, pg.viewport))
  }

  /**
   * The loop appends one canvas per page it reaches, for the pages at
   * positions i, i+1, ... in order, and every canvas but the last is done; a
   * completed loop has reached every page and finished each one.
   */
  lemma {:induction false} PagesFromShape(p: Params, src: string, env: Environment, doc: Document, i: nat)
    requires i <= |p.page|
    ensures var t := PagesFrom(p, src, env, doc, i);
      && |t.items| <= |p.page| - i
      && (forall j :: 0 <= j < |t.items| ==>
            t.items[j].Canvas? && t.items[j].page == p.page[i + j] && t.items[j].linked == p.link)
      && (forall j :: 0 <= j < |t.items| - 1 ==> Done(t.items[j], p, env, doc))
      && (t.outcome == Completed ==>
            |t.items| == |p.page| - i && forall j :: 0 <= j < |t.items| ==> Done(t.items[j], p, env, doc))
    decreases |p.page| - i
  {
    if i < |p.page| {
      PagesFromShape(p, src, env, doc, i + 1);
    }
  }

  /** The canvases of a trace lie over the pages at positions i, i+1, ... */
  lemma {:induction false} CanvasPagesOfTrace(items: seq<Item>, pages: seq<int>, i: nat)
    requires i + |items| <= |pages|
    requires forall j :: 0 <= j < |items| ==> items[j].Canvas? && items[j].page == pages[i + j]
    ensures CanvasPages(items) == pages[i..i + |items|]
    decreases |items|
  {
    if items != [] {
      CanvasPagesOfTrace(items[1..], pages, i + 1);
    }
  }

  /** Only canvases contribute page numbers, so a trailing non-canvas adds none. */
  lemma {:induction false} CanvasPagesAppend(a: seq<Item>, b: seq<Item>)
    ensures CanvasPages(a + b) == CanvasPages(a) + CanvasPages(b)
    decreases |a|
  {
    if a != [] {
      assert (a + b)[0] == a[0];
      assert (a + b)[1..] == a[1..] + b;
      CanvasPagesAppend(a[1..], b);
    } else {
      assert a + b == b;
    }
  }

  /**
   * The pages a render draws are a prefix of its (possibly expanded) page
   * list: pages are taken in order and none is skipped.
   */
  lemma RenderedPagesArePrefix(params: Option<Params>, src: string, env: Environment)
    ensures var v := RenderSpec(params, src, env);
      v.params.Some? ==> CanvasPages(v.el) <= v.params.value.page
  {
    var v := RenderSpec(params, src, env);
    if params.Some? && env.fetched && Guard(src, env, AfterFetch) && env.document.Some?
       && Guard(src, env, AfterOpen)
    {
      var doc := env.document.value;
      var q := v.params.value;
      var t := PagesFrom(q, src, env, doc, 0);
      PagesFromShape(q, src, env, doc, 0);
      CanvasPagesOfTrace(t.items, q.page, 0);
      var tail := Finish(t, q.note)[|t.items|..];
      assert Finish(t, q.note) == t.items + tail;
      CanvasPagesAppend(t.items, tail);
      assert CanvasPages(tail) == [] by {
        if tail != [] {
          assert tail[1..] == [];
        }
      }
    }
  }

  /**
   * Nothing is drawn after a guard that fails: a failure before fetching the
   * page at position j leaves only the canvases of earlier pages, and a failure
   * before sizing or painting it leaves that page's canvas unsized or unpainted
   * as the last one.
   */
  lemma {:induction false} StopsAtFailedGuard(p: Params, src: string, env: Environment, doc: Document, i: nat, j: nat)
    requires i <= j < |p.page|
    ensures var t := PagesFrom(p, src, env, doc, i);
      !Guard(src, env, BeforePage(j)) ==> |t.items| <= j - i && t.outcome != Completed
    ensures var t := PagesFrom(p, src, env, doc, i);
      !Guard(src, env, BeforeSize(j)) ==>
        |t.items| <= j - i + 1 && t.outcome != Completed &&
        (|t.items| == j - i + 1 ==> t.items[j - i].Canvas? && t.items[j - i].layout.None? && t.outcome == Stale)
    ensures var t := PagesFrom(p, src, env, doc, i);
      !Guard(src, env, BeforePaint(j)) ==>
        |t.items| <= j - i + 1 && t.outcome != Completed &&
        (|t.items| == j - i + 1 ==> t.items[j - i].Canvas? && !t.items[j - i].painted && t.outcome == Stale)
    decreases j - i
  {
    if i < j {
      StopsAtFailedGuard(p, src, env, doc, i + 1, j);
    }
  }

  /**
   * A page pass that goes on contributes its finished canvas before the rest of
   * the loop; one that stops leaves the whole of what the loop leaves.
   */
  lemma PageStep(p: Params, src: string, env: Environment, doc: Document, i: nat)
    requires i < |p.page|
    ensures var t := PageTrace(p, src, env, doc, i);
      Finish(PagesFrom(p, src, env, doc, i), p.note) ==
        if t.outcome == Completed then t.items + Finish(PagesFrom(p, src, env, doc, i + 1), p.note)
        else Finish(t, p.note)
  {
    var t := PageTrace(p, src, env, doc, i);
    if t.outcome == Completed {
      var rest := PagesFrom(p, src, env, doc, i + 1);
      SeqAssoc(t.items, rest.items, Finish(rest, p.note)[|rest.items|..]);
    }
  }

  /** Every page of the list can be fetched and painted, and annotated when asked to. */
  predicate PagesSucceed(p: Params, env: Environment, doc: Document)
  {
    forall n :: n in p.page ==>
      doc.getPage(n).Some? && doc.paints(n) &&
      (Annotates(p, env) ==> env.annotationRuns(n, PageScope(p, doc.getPage(n).value)))
  }

  /** A loop whose guards all pass and whose pages all succeed completes. */
  lemma {:induction false} UndisturbedLoopCompletes(p: Params, src: string, env: Environment, doc: Document, i: nat)
    requires i <= |p.page|
    requires forall s: Step :: Guard(src, env, s)
    requires PagesSucceed(p, env, doc)
    ensures PagesFrom(p, src, env, doc, i).outcome == Completed
    decreases |p.page| - i
  {
    if i < |p.page| {
      assert p.page[i] in p.page;
      UndisturbedLoopCompletes(p, src, env, doc, i + 1);
    }
  }

  /**
   * A render that no guard stops and no failure interrupts draws every page of
   * the expanded list, each sized by the crop geometry and painted, and then
   * the caption.
   */
  lemma UndisturbedRenderCompletes(p: Params, src: string, env: Environment)
    requires env.fetched && env.document.Some?
    requires forall s: Step :: Guard(src, env, s)
    requires PagesSucceed(p.(page := PageList.Expand(p.page, env.document.value.numPages)), env, env.document.value)
    ensures var v := RenderSpec(Some(p), src, env);
      var q := p.(page := PageList.Expand(p.page, env.document.value.numPages));
      && v.params == Some(q)
      && |v.el| == |q.page| + 1
      && v.el[|q.page|] == Caption(p.note)
      && forall j :: 0 <= j < |q.page| ==> v.el[j].Canvas? && v.el[j].page == q.page[j] && Done(v.el[j], q, env, env.document.value)
  {
    var doc := env.document.value;
    var q := p.(page := PageList.Expand(p.page, doc.numPages));
    UndisturbedLoopCompletes(q, src, env, doc, 0);
    PagesFromShape(q, src, env, doc, 0);
    assert Guard(src, env, AfterFetch) && Guard(src, env, AfterOpen);
    var t := PagesFrom(q, src, env, doc, 0);
    assert RenderSpec(Some(p), src, env) == View(Some(q), t.items + [Caption(q.note)]);
  }

  /**
   * A render changes nothing in the parameters but the page list, and the page
   * list only when both early guards pass and the list holds the sentinel; it
   * then becomes every page of the document.
   */
  lemma RenderPageList(p: Params, src: string, env: Environment)
    ensures var v := RenderSpec(Some(p), src, env);
      && v.params.Some?
      && v.params.value == p.(page := v.params.value.page)
      && (v.params.value.page != p.page ==>
            0 in p.page && env.fetched && env.document.Some? &&
            Guard(src, env, AfterFetch) && Guard(src, env, AfterOpen) &&
            v.params.value.page == PageList.AllPages(env.document.value.numPages))
  {
  }

  /**
   * The sentinel is consumed by the first render that reaches the page loop: a
   * later render keeps the page list it left, even when the re-opened document
   * has a different number of pages.
   */
  lemma RerenderKeepsPageList(p: Params, src: string, env1: Environment, env2: Environment)
    requires env1.fetched && env1.document.Some?
    requires Guard(src, env1, AfterFetch) && Guard(src, env1, AfterOpen)
    ensures var v1 := RenderSpec(Some(p), src, env1);
      RenderSpec(v1.params, src, env2).params == v1.params
  {
    PageList.ExpandIdempotent(p.page, env1.document.value.numPages);
    var q := p.(page := PageList.Expand(p.page, env1.document.value.numPages));
    if env2.document.Some? {
      PageList.AllPagesMembers(env1.document.value.numPages, 0);
      assert PageList.Expand(q.page, env2.document.value.numPages) == q.page;
    }
  }

  /**
   * A fractional coordinate handed to `W` or `H` in a finished page's
   * annotation script lands strictly inside that page's canvas.
   */
  lemma ScopeFractionInsideCanvas(p: Params, env: Environment, doc: Document, item: Item, n: real)
    requires Done(item, p, env, doc)
    requires 0.0 < n < 1.0
    requires item.layout.value.width > 0.0 && item.layout.value.height > 0.0
    ensures var s := PageScope(p, doc.getPage(item.page).value);
      && 0.0 < Annotation.W(s, n) < item.layout.value.width
      && 0.0 < Annotation.H(s, n) < item.layout.value.height
  {
    var layout := item.layout.value;
    Annotation.FractionInsideCanvas(layout.width, layout.height, n);
  }

  /** Concatenation is associative (stated once so that the render loop need not rediscover it). */
  lemma SeqAssoc(a: seq<Item>, b: seq<Item>, c: seq<Item>)
    ensures (a + b) + c == a + (b + c)
  {
  }

  /** The renderer of one block. */
  class PdfBlockRenderer {
    var params: Option<Params>
    const sourcePath: string
    /** The children of the block's element, in order. */
    var el: seq<Item>
    /** The paths handed to the cache's `invalid`, oldest first. */
    var invalidated: seq<string>

    constructor(params: Option<Params>, sourcePath: string)
      ensures this.params == params && this.sourcePath == sourcePath
      ensures el == [] && invalidated == []
    {
      this.params := params;
      this.sourcePath := sourcePath;
      el := [];
      invalidated := [];
    }

    /** `render`: one render pass with the given answers from the outside world. */
    method Render(env: Environment)
      modifies this
      ensures View(params, el) == RenderSpec(old(params), sourcePath, env)
      ensures invalidated == old(invalidated)
    {
      el := [];
      if params.None? {
        return;
      }
      var p := params.value;
      ghost var p0 := p;
      if !env.fetched {
        el := el + [ErrorLine(FetchFailed)];
        return;
      }
      if !CheckActiveFile(sourcePath, env.activeFile(AfterFetch)) {
        return;
      }
      if env.document.None? {
        el := el + [ErrorLine(OpenFailed)];
        return;
      }
      var doc := env.document.value;
      if !CheckActiveFile(sourcePath, env.activeFile(AfterOpen)) {
        return;
      }
      if 0 in p.page {
        p := p.(page := PageList.AllPages(doc.numPages));
        params := Some(p);
      }
      ghost var whole := PagesFrom(p, sourcePath, env, doc, 0);
      assert RenderSpec(old(params), sourcePath, env) == View(Some(p), Finish(whole, p.note));
      var i := 0;
      while i < |p.page|
        invariant 0 <= i <= |p.page|
        invariant params == Some(p)
        invariant p == p0.(page := PageList.Expand(p0.page, doc.numPages))
        invariant el + Finish(PagesFrom(p, sourcePath, env, doc, i), p.note) == Finish(whole, p.note)
        invariant invalidated == old(invalidated)
      {
        PageStep(p, sourcePath, env, doc, i);
        ghost var t := PageTrace(p, sourcePath, env, doc, i);
        ghost var prior := el;
        var next := DrawPage(p, doc, env, i);
        if !next {
          return;
        }
        SeqAssoc(prior, t.items, Finish(PagesFrom(p, sourcePath, env, doc, i + 1), p.note));
        i := i + 1;
      }
      el := el + [Caption(p.note)];
    }

    /**
     * One pass of the loop of `render`, for the page at position `i`: appends
     * the page's canvas and readies it step by step (size, paint, annotation).
     * When the pass throws, it also appends the error line that the `catch` of
     * `render` writes. `next` says whether the loop goes on.
     */
    method DrawPage(p: Params, doc: Document, env: Environment, i: nat) returns (next: bool)
      requires i < |p.page|
      modifies this`el
      ensures next <==> PageTrace(p, sourcePath, env, doc, i).outcome == Completed
      ensures var t := PageTrace(p, sourcePath, env, doc, i);
        el == old(el) + if next then t.items else Finish(t, p.note)
    {
      var n := p.page[i];
      var prior := el;
      next := false;
      if !CheckActiveFile(sourcePath, env.activeFile(BeforePage(i))) {
        return;
      }
      var page := doc.getPage(n);
      if page.None? {
        el := el + [ErrorLine(PageFailed(n))];
        return;
      }
      var canvas := Canvas(n, p.link, None, false, false);
      el := prior + [canvas];
      if !CheckActiveFile(sourcePath, env.activeFile(BeforeSize(i))) {
        return;
      }
      canvas := canvas.(layout := Some(Geometry.Place(p.rect, page.value.view, page.value.viewport)));
      el := prior + [canvas];
      if !CheckActiveFile(sourcePath, env.activeFile(BeforePaint(i))) {
        return;
      }
      if !doc.paints(n) {
        el := el + [ErrorLine(PaintFailed(n))];
        return;
      }
      canvas := canvas.(painted := true);
      el := prior + [canvas];
      if p.annot != "" && env.allowAnnotations {
        if !env.annotationRuns(n, PageScope(p, page.value)) {
          el := el + [ErrorLine(AnnotationFailed(n))];
          return;
        }
        canvas := canvas.(annotated := true);
        el := prior + [canvas];
      }
      next := true;
    }

    /**
     * `init`: appends the loading hook; when it is already laid out (its
     * bottom edge is not 0) renders at once, otherwise reports the timer it arms.
     */
    method Init(bottom: real, env: Environment) returns (t: Trigger)
      modifies this
      ensures t == InitialTrigger(bottom, old(params))
      ensures t.RenderNow? ==> View(params, el) == RenderSpec(old(params), sourcePath, env)
      ensures !t.RenderNow? ==> params == old(params) && el == old(el) + [LoadingHook]
      ensures invalidated == old(invalidated)
    {
      el := el + [LoadingHook];
      if bottom != 0.0 {
        Render(env);
        t := RenderNow;
      } else if params.None? {
        t := Aborted;
      } else {
        t := Deferred(PageList.TimerDelay(params.value.page));
      }
    }

    /**
     * The vault's `modify` handler: a change to the block's own file
     * invalidates it in the cache and renders again; any other change is ignored.
     */
    method OnModify(path: string, env: Environment)
      modifies this
      ensures old(params).Some? && path == old(params).value.file ==>
        invalidated == old(invalidated) + [path] &&
        View(params, el) == RenderSpec(old(params), sourcePath, env)
      ensures !(old(params).Some? && path == old(params).value.file) ==>
        params == old(params) && el == old(el) && invalidated == old(invalidated)
    {
      if params.Some? && path == params.value.file {
        invalidated := invalidated + [path];
        Render(env);
      }
    }
  }
}
