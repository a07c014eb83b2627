# slide-note PDF block renderer: a Dafny model

This project models the parts of the obsidian-slide-note plugin that carry exact behaviour.
A "slide-note" block embeds cropped regions of PDF pages in a note.

- **Geometry** (`geometry.dfy`): the crop offsets and canvas size that
  `PDFBlockRenderer.render` derives for each page. The zoom is fixed at 2. The crop box
  is `rect = [x, y, w, h]`, scaled by `page.view[2]` and `page.view[3]` (the far x and far y
  of the page box), and `-1` is a per-axis "no crop" sentinel. The width and the x offset test `rect[0]` for the
  sentinel; the height and the y offset test `rect[1]`.
- **Annotation** (`annotation.dfy`): the helpers `W(n)` and `H(n)` that the renderer puts in
  scope for a block's annotation script, and the values it binds to them
  (`zoom`, `effectWidth / zoom`, `effectHeight / zoom`).
- **PageList** (`pagelist.dfy`): replacing the page list with `1..numPages` when it
  contains the sentinel `0`, and the lazy-load fallback delay `(page[0] % 15 + 1) * 5000`,
  computed with JavaScript's truncating remainder.
- **Renderer** (`renderer.dfy`): the render pass as a class `PdfBlockRenderer`. The
  block's element is a sequence of items: loading hook, canvases, error line, caption.
  `Render` clears the element, fetches, opens, expands the page list in place and loops over
  the pages. It asks `checkActiveFile` whether the note holding the block is still the active
  file after the fetch, after opening the document, and for each page before fetching it,
  before sizing its canvas and before painting it, and returns early if not. Nothing is
  checked before the fetch or after the paint: a stale render still fetches, and the
  annotation script and the caption run unguarded. Everything from outside is an
  input of type `Environment`:
  - the cache fetch, `getDocument`, `getPage`, `page.render`;
  - the workspace's active file at each consultation (a function of the `Step`);
  - the annotation setting, and whether the script throws, given the page and the scope
    (`zoom`, `w`, `h`) it is called with.

  `Render` is proved equal to the pure `RenderSpec`. The lemmas about `RenderSpec` and
  `PagesFrom` state what the loop promises.
- **Cursor** (`cursor.dfy`): `registerCursorPosition` as a class `CursorTracker`.
  It holds the remembered last mouseup point, which starts at (0, 0), and the status text.
  Mouseup emits `W(x0), H(y0), W(dx), H(dy)` from the point remembered before the event,
  then remembers the new point. A ghost history of mouseups connects the class to
  `Snippets`, a pure replay whose snippets chain and whose displacements add up to the
  remembered point.

Behaviour of the code that differs from what its options suggest:

- The raster zoom is the constant 2. The block's `dpi` parameter is not used by `render`.
- `W`/`H` scale a value that is not strictly between 0 and 1 by the zoom. They do not pass it
  through unchanged. A negative value, and so a leftward or upward displacement in a mouseup
  snippet, is taken as pixels (`Annotation.NegativeIsPixels`).
- When the annotation script throws, the exception leaves the page loop. Later pages are not
  drawn, and the error line follows the painted canvas.
- A degenerate crop size (zero or negative) is not rejected. `Math.floor` of the product is used as is.
- Staleness is detected by comparing the active file's path with the block's note path at each
  step. There is no generation counter.
- The page list is rewritten in place. A re-render after the PDF changes keeps the page count
  from the first render (`Renderer.RerenderKeepsPageList`).

## Model

| member | source | states |
|---|---|---|
| `Geometry.Offset` | src/pdfblock/renderer.ts:114-116 | without a crop on the axis the offset is 0; with one, it is the shift that brings the crop origin `origin * view * 2` to pixel 0 |
| `Geometry.CropSize` | src/pdfblock/renderer.ts:124-128 | the cropped canvas extent is the integer n with n ≤ span·extent·2 < n + 1, i.e. `Math.floor` of the zoomed span |
| `Geometry.Extent` | src/pdfblock/renderer.ts:124-128 | without the sentinel -1 in the axis's origin coordinate the canvas extent is a whole number at most 1 below the zoomed crop span; with it, the extent is the viewport's |
| `Geometry.OffsetOnPage` | src/pdfblock/renderer.ts:115-116 | for an origin in [0, 1) on a page of positive extent, the offset lies in (-extent·2, 0] |
| `Geometry.Place` | src/pdfblock/renderer.ts:114-130 | the layout a canvas records: both offsets and both canvas extents; its properties are stated by `PlaceAxes` and the lemmas below |
| `Geometry.PlaceAxes` | src/pdfblock/renderer.ts:114-130 | each axis is either uncropped (offset 0, the viewport's extent) or cropped (the crop origin moved to pixel 0, the canvas extent the zoomed span floored to a whole number) |
| `Geometry.CropInsidePage` | src/pdfblock/renderer.ts:115-128 | a crop box with origin + span ≤ 1 yields a non-negative canvas size whose far edge, shifted by the offset, stays within [0, view·2], where view is `page.view[2]` (or `page.view[3]`) |
| `Geometry.AxesIndependent` | src/pdfblock/renderer.ts:115-128 | width and x offset depend only on rect[0], rect[2] and the page width; height and y offset only on rect[1], rect[3] and the page height |
| `Geometry.UncroppedIsFullViewport` | src/pdfblock/renderer.ts:115-128 | with the sentinel on both axes the layout is offset (0, 0) with the viewport's size |
| `Geometry.CentralQuarterExample` | src/pdfblock/renderer.ts:114-128 | a 600×800 page cropped to [0.25, 0.25, 0.5, 0.5] gives offsets (-300, -400) and a 600×800 canvas |
| `Annotation.Map` | src/pdfblock/renderer.ts:151-158 | a coordinate strictly between 0 and 1 maps to n·zoom·dim; every other value maps to n·zoom |
| `Annotation.W` | src/pdfblock/renderer.ts:155-158 | the script's `W(n)`: `Map` with the scope's zoom and `w`; what it yields is stated by `Map`, `BoundHelpers` and `FractionInsideCanvas` |
| `Annotation.H` | src/pdfblock/renderer.ts:151-154 | the script's `H(n)`: `Map` with the scope's zoom and `h`; what it yields is stated by `Map`, `BoundHelpers` and `FractionInsideCanvas` |
| `Annotation.Bind` | src/pdfblock/renderer.ts:163 | the script's scope has zoom 2 and w, h such that w·zoom and h·zoom are the extents it is given (for a page, `Renderer.PageScope` passes that page's canvas extents) |
| `Annotation.BoundHelpers` | src/pdfblock/renderer.ts:151-163 | in the bound scope a fractional `W(n)` is n·effectWidth (and `H(n)` n·effectHeight); any other n gives 2n |
| `Annotation.FractionInsideCanvas` | src/pdfblock/renderer.ts:151-163 | on a canvas of positive size a fractional coordinate maps strictly inside it |
| `Annotation.FractionsAdd` | src/pdfblock/renderer.ts:151-158 | fractional arguments whose sum is fractional map additively: W(a) + W(b) = W(a + b) |
| `Annotation.NegativeIsPixels` | src/pdfblock/renderer.ts:151-158 | a negative argument is never treated as a fraction: W(n) = H(n) = n·zoom |
| `PageList.AllPages` | src/pdfblock/renderer.ts:87-90 | the replacement list has length numPages and element i is i + 1 |
| `PageList.Expand` | src/pdfblock/renderer.ts:86-91 | a list containing 0 becomes every page of the document; any other list is kept as it is |
| `PageList.AllPagesAscending` | src/pdfblock/renderer.ts:87-90 | the replacement list is strictly ascending |
| `PageList.AllPagesMembers` | src/pdfblock/renderer.ts:87-90 | the replacement list contains exactly the page numbers 1..numPages, so not the sentinel |
| `PageList.ExpandIdempotent` | src/pdfblock/renderer.ts:86-91 | expanding an already expanded list changes nothing |
| `PageList.JsRem` | src/pdfblock/renderer.ts:58 | JavaScript's `%`: for a non-negative dividend the remainder is in [0, b), for a negative one in (-b, 0] |
| `PageList.JsRemCongruent` | src/pdfblock/renderer.ts:58 | the dividend and its JavaScript remainder modulo 15 differ by a multiple of 15 |
| `PageList.FallbackDelay` | src/pdfblock/renderer.ts:58 | the delay is a multiple of 5000; for a first page ≥ 0 it lies in [5000, 75000], for a negative one in [-65000, 5000] |
| `PageList.DelayPeriodic` | src/pdfblock/renderer.ts:58 | first pages 15 apart get the same delay |
| `PageList.TimerDelay` | src/pdfblock/renderer.ts:53-59 | the timer waits the formula's value for a first page ≥ 0, and 0 when the list is empty (the NaN case) |
| `Renderer.CheckActiveFile` | src/pdfblock/renderer.ts:181-189 | true when no file is active; otherwise true iff the active file's path is the block's note path |
| `Renderer.PageScope` | src/pdfblock/renderer.ts:124-163 | the script of a page is called with zoom 2 and w, h such that w·zoom and h·zoom are that page's canvas width and height from `Geometry.Place` |
| `Renderer.ScopeFractionInsideCanvas` | src/pdfblock/renderer.ts:124-163 | for a finished canvas of positive size, a fractional `W(n)` (`H(n)`) in its page's script scope lies strictly inside the canvas width (height) it records |
| `Renderer.PageTrace` | src/pdfblock/renderer.ts:93-172 | one pass of the page loop: the canvas it leaves and whether the loop goes on, returns or throws; stated by `PageTraceShape` and `StopsAtFailedGuard` |
| `Renderer.PageTraceShape` | src/pdfblock/renderer.ts:93-172 | a pass leaves at most the canvas of its own page; a pass that goes on passed all three guards and left that canvas sized by the crop geometry, painted and annotated when asked to |
| `Renderer.PagesFrom` | src/pdfblock/renderer.ts:93-138 | the page loop from a position on; stated by `PagesFromShape`, `StopsAtFailedGuard` and `UndisturbedLoopCompletes` |
| `Renderer.RenderSpec` | src/pdfblock/renderer.ts:72-179 | the state a render leaves, which `PdfBlockRenderer.Render` is proved to reach; stated by `RenderedPagesArePrefix`, `UndisturbedRenderCompletes`, `RenderPageList` and `RerenderKeepsPageList` |
| `Renderer.InitialTrigger` | src/pdfblock/renderer.ts:47-59 | renders at once iff the loading hook's bottom is not 0; otherwise arms a timer with the page-derived delay when parameters exist |
| `Renderer.PagesFromShape` | src/pdfblock/renderer.ts:93-138 | the loop appends one canvas per page reached, for consecutive positions of the page list, all but the last finished; a completed loop finished every page |
| `Renderer.RenderedPagesArePrefix` | src/pdfblock/renderer.ts:86-138 | the page numbers of the canvases a render leaves are a prefix of its (expanded) page list |
| `Renderer.StopsAtFailedGuard` | src/pdfblock/renderer.ts:93-138 | nothing is drawn past a failed guard: a failure before `getPage` of position j leaves only earlier pages; one before sizing or painting leaves that page unsized or unpainted as the last canvas, and the loop does not complete |
| `Renderer.UndisturbedRenderCompletes` | src/pdfblock/renderer.ts:72-173 | when no guard fails and every page succeeds, the element holds one finished canvas per page of the expanded list, in order, each sized by the crop geometry, followed by the caption |
| `Renderer.RenderPageList` | src/pdfblock/renderer.ts:76-91 | a render changes no parameter except the page list, and that only when both early guards pass and the list held 0; it then becomes every page |
| `Renderer.RerenderKeepsPageList` | src/pdfblock/renderer.ts:86-91 | once a render has reached the loop, a later render keeps the page list, whatever page count the document then has |
| `Renderer.PdfBlockRenderer.constructor` | src/pdfblock/renderer.ts:14-27 | stores the parameters and the note path; the element starts empty |
| `Renderer.PdfBlockRenderer.Render` | src/pdfblock/renderer.ts:72-179 | the parameters and element after a render are exactly those of `RenderSpec`; the cache is not invalidated |
| `Renderer.PdfBlockRenderer.DrawPage` | src/pdfblock/renderer.ts:93-172 | one loop pass appends exactly the page's trace (plus the error line when it throws) and goes on iff the pass finished the page |
| `Renderer.PdfBlockRenderer.Init` | src/pdfblock/renderer.ts:41-70 | appends the loading hook, then renders at once or reports the armed timer, as `InitialTrigger` decides |
| `Renderer.PdfBlockRenderer.OnModify` | src/pdfblock/renderer.ts:29-38 | a change to the block's own file invalidates that path in the cache and renders again; any other change leaves everything unchanged |
| `Cursor.StatusText` | src/main.ts:36 | the status text `[xp,yp]`, which `CursorTracker.MouseMove` is proved to set |
| `Cursor.Text` | src/main.ts:40 | the clipboard text `W(x0), H(y0), W(dx), H(dy)` of a snippet, which `CursorTracker.MouseUp` is proved to emit |
| `Cursor.Snippets` | src/main.ts:38-42 | one snippet per mouseup, in order; `SnippetsChain` and `DeltasTelescope` state how they chain |
| `Cursor.SnippetsChain` | src/main.ts:38-42 | the first mouseup starts at (0, 0), each later one at the previous mouseup's point, and every snippet's start plus displacement is its own mouseup's point |
| `Cursor.DeltasTelescope` | src/main.ts:40-42 | the displacements of all snippets add up to the remembered point |
| `Cursor.SnippetSpansToRelease` | src/main.ts:40 | with fractional start, displacement and end, the snippet's W(x0) + W(dx) is W of the released point (and likewise for H) |
| `Cursor.CursorTracker.constructor` | src/main.ts:34-38 | the remembered point starts at (0, 0) and the status text is empty |
| `Cursor.CursorTracker.MouseMove` | src/main.ts:35-37 | the status becomes `[xp,yp]`; the remembered point is untouched |
| `Cursor.CursorTracker.MouseUp` | src/main.ts:39-43 | emits `W(x0), H(y0), W(xp-x0), H(yp-y0)` from the point remembered before the event, which is the replay's latest snippet, then remembers exactly (xp, yp) |
| `Cursor.CursorTracker.MouseLeave` | src/main.ts:44-46 | the status becomes empty; the remembered point is untouched |

## Left out

- pdf.js (`getDocument`, `getPage`, `getViewport`, `page.render`) is a foreign library. Its results are inputs: the document, each page's `view`, the uncropped viewport size after rotation, and whether painting succeeds.
- The cache (`cache.get`, `cache.invalid`): its source is not part of this model. A fetch is an input that succeeds or fails. An invalidation is recorded as a call in `PdfBlockRenderer.invalidated`.
- The block parser is not part of this model. Parameters arrive already parsed. Only the fields that `render` reads are kept. `scale` only feeds the CSS width and `rotat` only feeds pdf.js, so both are left out.
- Items stand for the element's children. Not modelled: `innerHTML`, the link's `href` text, the CSS width string, the canvas's 2D context and the canvas `mouseup` listener. The conversion the canvas applies when a non-integer width is assigned is not modelled; items record the assigned value.
- The visibility probing, the `wheel` and `touchmove` listeners and the repeating `setInterval` callback are host event plumbing. The model covers only the choice `init` makes and the delay it arms.
- The annotation script runs through `new Function`, which is dynamic code execution. Only `W`/`H` and the scope binding are modelled, plus whether the script throws. The `ctx.font` assignment is left out.
- Markdown rendering of the caption is represented by a `Caption` item. A failure inside the markdown renderer is not modelled.
- async/await interleaving: each render is modelled as one sequential pass. The answers of the active-file oracle stand for whatever happened between the steps. Two overlapping renders of one block are not modelled.
- Geometry.CropInsidePage: the crop is scaled by `page.view[2]` and `page.view[3]` whatever the rotation, and these are the far corner of the page box. So "within [0, view·2]" is inside the rendered page only for an unrotated page whose box starts at (0, 0); with `rotat` 90 or 270 the x axis of the viewport runs along the page's height.
- Floating point: arithmetic uses Dafny reals with `Floor`, not IEEE doubles.
- Clipboard writes, status-bar creation, worker setup, `console.log` and settings load/save are I/O. The clipboard text is `MouseUp`'s result, and the status text is a field.
- How the canvas event becomes the handler's `(x, y, xp, yp)` arguments is not modelled. The renderer triggers `slidenote:mouseup` with the event alone. The handlers are modelled with numeric `xp`, `yp`.
- JavaScript's number-to-string conversion inside template strings is the abstract `CursorTracker.format`.
