/**
 * The coordinate helpers `W` and `H` that the renderer defines for a block's
 * annotation script (renderer.ts, the `new Function` text), and the values it
 * binds them to after a page is painted.
 */
module Annotation {

  import Geometry

  /**
   * The names bound in the script's scope: `zoom`, and `w`, `h` (the canvas
   * size divided by the zoom).
   */
  datatype Scope = Scope(zoom: real, w: real, h: real)

  /**
   * The body shared by `W` and `H`: a coordinate strictly between 0 and 1 is a
   * fraction of the dimension `dim`; any other value is taken as unzoomed pixels.
   */
  function Map(n: real, zoom: real, dim: real): (r: real)
    ensures 0.0 < n < 1.0 ==> r == n * zoom * dim
    ensures !(0.0 < n < 1.0) ==> r == n * zoom
  {
    if n > 0.0 && n < 1.0 then n * zoom * dim else n * zoom
  }

  /** The script's `W(n)`. */
  function W(s: Scope, n: real): real { Map(n, s.zoom, s.w) }

  /** The script's `H(n)`. */
  function H(s: Scope, n: real): real { Map(n, s.zoom, s.h) }

  /**
   * The scope the renderer builds: `zoom` is the raster zoom and `w`, `h` are
   * the canvas extents divided by it.
   */
  function Bind(effectWidth: real, effectHeight: real): (s: Scope)
    ensures s.zoom == Geometry.ZOOM
    ensures s.w * s.zoom == effectWidth && s.h * s.zoom == effectHeight
  {
    Scope(Geometry.ZOOM, effectWidth / Geometry.ZOOM, effectHeight / Geometry.ZOOM)
  }

  /** Scaling by the zoom undoes the division by it. */
  lemma ZoomCancels(n: real, extent: real)
    ensures n * Geometry.ZOOM * (extent / Geometry.ZOOM) == n * extent
  {
  }

  /**
   * In the bound scope a fractional coordinate is that share of the canvas,
   * and any other value is doubled (scaled by the zoom).
   */
  lemma BoundHelpers(effectWidth: real, effectHeight: real, n: real)
    ensures 0.0 < n < 1.0 ==>
      W(Bind(effectWidth, effectHeight), n) == n * effectWidth &&
      H(Bind(effectWidth, effectHeight), n) == n * effectHeight
    ensures !(0.0 < n < 1.0) ==>
      W(Bind(effectWidth, effectHeight), n) == n * Geometry.ZOOM &&
      H(Bind(effectWidth, effectHeight), n) == n * Geometry.ZOOM
  {
    ZoomCancels(n, effectWidth);
    ZoomCancels(n, effectHeight);
  }

  /** A share strictly between 0 and 1 of a positive extent lies strictly inside it. */
  lemma ShareInside(n: real, extent: real)
    requires 0.0 < n < 1.0 && extent > 0.0
    ensures 0.0 < n * extent < extent
  {
    assert extent - n * extent == (1.0 - n) * extent;
  }

  /** A fractional coordinate lands strictly inside a canvas of positive size. */
  lemma FractionInsideCanvas(effectWidth: real, effectHeight: real, n: real)
    requires 0.0 < n < 1.0 && effectWidth > 0.0 && effectHeight > 0.0
    ensures 0.0 < W(Bind(effectWidth, effectHeight), n) < effectWidth
    ensures 0.0 < H(Bind(effectWidth, effectHeight), n) < effectHeight
  {
    BoundShare(effectWidth, n);
    BoundShare(effectHeight, n);
  }

  /** One axis of `FractionInsideCanvas`: `Map` in the bound scope stays inside the extent. */
  lemma BoundShare(extent: real, n: real)
    requires 0.0 < n < 1.0 && extent > 0.0
    ensures 0.0 < Map(n, Geometry.ZOOM, extent / Geometry.ZOOM) < extent
  {
    var r := Map(n, Geometry.ZOOM, extent / Geometry.ZOOM);
    assert r == n * Geometry.ZOOM * (extent / Geometry.ZOOM);
    ZoomCancels(n, extent);
    assert r == n * extent;
    ShareInside(n, extent);
  }

  /**
   * Fractional coordinates add up: two fractions whose sum is a fraction map to
   * the sum of their images. This is what makes a start point plus a width,
   * both fractional, end at the fractional end point.
   */
  lemma FractionsAdd(s: Scope, a: real, b: real)
    requires 0.0 < a < 1.0 && 0.0 < b < 1.0 && a + b < 1.0
    ensures W(s, a) + W(s, b) == W(s, a + b)
    ensures H(s, a) + H(s, b) == H(s, a + b)
  {
    assert a * s.zoom * s.w + b * s.zoom * s.w == (a + b) * s.zoom * s.w;
    assert a * s.zoom * s.h + b * s.zoom * s.h == (a + b) * s.zoom * s.h;
  }

  /**
   * A negative coordinate is never read as a fraction: `W(-0.25)` is
   * `-0.25 * zoom` pixels, not a quarter of the width to the left.
   */
  lemma NegativeIsPixels(s: Scope, n: real)
    requires n < 0.0
    ensures W(s, n) == n * s.zoom && H(s, n) == n * s.zoom
  {
  }
}
