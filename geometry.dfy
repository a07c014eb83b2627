/**
 * Crop and canvas geometry of one rendered PDF page (renderer.ts, render loop body).
 *
 * A block's `rect` is a normalised crop box [x, y, w, h]; `-1` on an axis means
 * "no crop" for that axis. The crop is scaled by `page.view[2]` and
 * `page.view[3]`, the far corner of the page box [x0, y0, x1, y1]; these are
 * the page's width and height only when the box starts at (0, 0). The scaling
 * ignores the rotation, which pdf.js applies to the viewport alone. The size of
 * the uncropped viewport that pdf.js computes is an input.
 */
module Geometry {

  /** The raster zoom factor, hard-wired to 2 in the renderer. */
  const ZOOM: real := 2.0

  /** The per-axis "no crop" sentinel. */
  const NO_CROP: real := -1.0

  /** The normalised crop box `rect` as [x, y, w, h]. */
  datatype Rect = Rect(x: real, y: real, w: real, h: real)

  /**
   * A width and a height: `page.view[2]` and `page.view[3]` (the far x and far y
   * of the page box), or a viewport's size.
   */
  datatype Box = Box(width: real, height: real)

  /** What the renderer derives for one page: viewport offsets and canvas size. */
  datatype Layout = Layout(offsetX: real, offsetY: real, width: real, height: real)

  /**
   * The viewport offset on one axis: zero without a crop, otherwise the shift
   * that moves the crop origin `origin * extent * ZOOM` to pixel 0.
   */
  function Offset(origin: real, extent: real): (r: real)
    ensures origin == NO_CROP ==> r == 0.0
    ensures origin != NO_CROP ==> r + origin * extent * ZOOM == 0.0
  {
    if origin == NO_CROP then 0.0 else - origin * extent * ZOOM
  }

  /**
   * The cropped canvas extent on one axis, `Math.floor(span * extent * ZOOM)`:
   * the largest integer not above the exact zoomed span.
   */
  function CropSize(span: real, extent: real): (n: int)
    ensures n as real <= span * extent * ZOOM < n as real + 1.0
  {
    (span * extent * ZOOM).Floor
  }

  /**
   * The canvas extent on one axis. The sentinel is read from the ORIGIN
   * coordinate of that axis (rect[0] for the width, rect[1] for the height),
   * while the cropped size is taken from the span (rect[2], rect[3]).
   */
  function Extent(key: real, span: real, extent: real, uncropped: real): (r: real)
    ensures key == NO_CROP ==> r == uncropped
    ensures key != NO_CROP ==> r == r.Floor as real && r <= span * extent * ZOOM < r + 1.0
  {
    if key == NO_CROP then uncropped else CropSize(span, extent) as real
  }

  /**
   * The geometry of one page: `view` holds the far corner of the page box and
   * `viewport` the size of the uncropped, zoomed and rotated viewport. Each axis
   * is either uncropped (offset 0, the viewport's extent) or cropped (the crop
   * origin shifted to pixel 0, the zoomed span floored); `PlaceAxes` states it.
   */
  function Place(rect: Rect, view: Box, viewport: Box): Layout
  {
    Layout(
      Offset(rect.x, view.width),
      Offset(rect.y, view.height),
      Extent(rect.x, rect.w, view.width, viewport.width),
      Extent(rect.y, rect.h, view.height, viewport.height))
  }

  /**
   * Each axis of a page's layout is either uncropped (offset 0, the viewport's
   * extent) or cropped (the crop origin shifted to pixel 0, the zoomed span
   * floored to a whole number).
   */
  lemma PlaceAxes(rect: Rect, view: Box, viewport: Box)
    ensures var r := Place(rect, view, viewport);
      && (rect.x == NO_CROP ==> r.offsetX == 0.0 && r.width == viewport.width)
      && (rect.x != NO_CROP ==>
            r.offsetX + rect.x * view.width * ZOOM == 0.0 &&
            r.width == r.width.Floor as real && r.width <= rect.w * view.width * ZOOM < r.width + 1.0)
      && (rect.y == NO_CROP ==> r.offsetY == 0.0 && r.height == viewport.height)
      && (rect.y != NO_CROP ==>
            r.offsetY + rect.y * view.height * ZOOM == 0.0 &&
            r.height == r.height.Floor as real && r.height <= rect.h * view.height * ZOOM < r.height + 1.0)
  {
  }

  /** A crop box coordinate in the range the block language admits for x and y. */
  predicate IsOrigin(c: real) { 0.0 <= c < 1.0 }

  /** A crop box coordinate in the range the block language admits for w and h. */
  predicate IsSpan(c: real) { 0.0 < c <= 1.0 }

  /**
   * With an in-range origin the offset lies in (-extent * ZOOM, 0]: the crop
   * origin falls within the zoomed extent.
   */
  lemma OffsetOnPage(origin: real, extent: real)
    requires IsOrigin(origin) && extent > 0.0
    ensures - extent * ZOOM < Offset(origin, extent) <= 0.0
  {
    assert origin * extent < extent by {
      assert (1.0 - origin) * extent > 0.0;
    }
  }

  /**
   * A crop box that ends by 1 gives a canvas within [0, extent * ZOOM] on that
   * axis: the shifted origin plus the floored size does not pass the zoomed
   * far coordinate of the page box.
   */
  lemma CropInsidePage(origin: real, span: real, extent: real)
    requires IsOrigin(origin) && IsSpan(span) && origin + span <= 1.0 && extent >= 0.0
    ensures 0.0 <= CropSize(span, extent) as real
    ensures - Offset(origin, extent) + CropSize(span, extent) as real <= extent * ZOOM
  {
    var n := CropSize(span, extent);
    assert span * extent >= 0.0;
    assert origin * extent * ZOOM + span * extent * ZOOM == (origin + span) * extent * ZOOM;
    assert (1.0 - (origin + span)) * extent >= 0.0;
    assert 0.0 <= n as real by {
      assert n as real > -1.0;
    }
  }

  /**
   * The two axes are independent: the width and the x offset depend only on
   * rect[0], rect[2], the page width and the viewport width, and likewise for
   * the height with rect[1], rect[3].
   */
  lemma AxesIndependent(r1: Rect, r2: Rect, view: Box, viewport: Box)
    ensures r1.x == r2.x && r1.w == r2.w ==>
      Place(r1, view, viewport).offsetX == Place(r2, view, viewport).offsetX &&
      Place(r1, view, viewport).width == Place(r2, view, viewport).width
    ensures r1.y == r2.y && r1.h == r2.h ==>
      Place(r1, view, viewport).offsetY == Place(r2, view, viewport).offsetY &&
      Place(r1, view, viewport).height == Place(r2, view, viewport).height
  {
  }

  /**
   * Without a crop on either axis the page is drawn at offset (0, 0) and the
   * canvas takes the viewport's size.
   */
  lemma UncroppedIsFullViewport(rect: Rect, view: Box, viewport: Box)
    requires rect.x == NO_CROP && rect.y == NO_CROP
    ensures Place(rect, view, viewport) == Layout(0.0, 0.0, viewport.width, viewport.height)
  {
  }

  /**
   * A 600 by 800 page cropped to its central quarter [0.25, 0.25, 0.5, 0.5]:
   * offsets (-300, -400) and a 600 by 800 canvas.
   */
  lemma CentralQuarterExample()
    ensures Place(Rect(0.25, 0.25, 0.5, 0.5), Box(600.0, 800.0), Box(1200.0, 1600.0))
         == Layout(-300.0, -400.0, 600.0, 800.0)
  {
    assert (0.5 * 600.0 * ZOOM).Floor == 600;
    assert (0.5 * 800.0 * ZOOM).Floor == 800;
  }
}
