/**
 * The block's page list as the renderer uses it: the "all pages" sentinel 0
 * that is expanded once the document's page count is known, and the first
 * page number from which the lazy-load fallback delay is derived.
 */
module PageList {

  /** The pages 1, 2, ..., n in order, as `Array.from({length: n}, (_, i) => i + 1)`. */
  function AllPages(n: nat): (r: seq<int>)
    ensures |r| == n
    ensures forall i :: 0 <= i < n ==> r[i] == i + 1
  {
    seq(n, i => i + 1)
  }

  /** The list of pages to draw: every page when the list mentions 0, else the list itself. */
  function Expand(pages: seq<int>, numPages: nat): (r: seq<int>)
    ensures 0 in pages ==> r == AllPages(numPages)
    ensures 0 !in pages ==> r == pages
  {
    if 0 in pages then AllPages(numPages) else pages
  }

  /** The expanded list is strictly ascending. */
  lemma AllPagesAscending(n: nat)
    ensures forall i, j :: 0 <= i < j < n ==> AllPages(n)[i] < AllPages(n)[j]
  {
  }

  /** The expanded list holds exactly the valid page numbers 1..n, so no 0. */
  lemma AllPagesMembers(n: nat, p: int)
    ensures p in AllPages(n) <==> 1 <= p <= n
  {
    if 1 <= p <= n {
      assert AllPages(n)[p - 1] == p;
    }
  }

  /** Expanding a second time changes nothing: the expanded list has no sentinel. */
  lemma ExpandIdempotent(pages: seq<int>, numPages: nat)
    ensures Expand(Expand(pages, numPages), numPages) == Expand(pages, numPages)
  {
    AllPagesMembers(numPages, 0);
  }

  /** JavaScript's `%` on integers: the remainder takes the sign of the dividend. */
  function JsRem(a: int, b: int): (r: int)
    requires b > 0
    ensures a >= 0 ==> 0 <= r < b
    ensures a < 0 ==> -b < r <= 0
  {
    if a >= 0 then a % b else - ((- a) % b)
  }

  /**
   * The page number and its remainder modulo 15 differ by a multiple of 15,
   * whatever the sign: JavaScript's remainder is congruent to its dividend.
   */
  lemma JsRemCongruent(a: int)
    ensures (a - JsRem(a, 15)) % 15 == 0
  {
    if a < 0 {
      var q := (- a) / 15;
      assert - a == q * 15 + (- a) % 15;
      assert a - JsRem(a, 15) == (- q) * 15;
    }
  }

  /** The fallback delay in milliseconds for a block whose first page is `first`. */
  function FallbackDelay(first: int): (ms: int)
    ensures ms % 5000 == 0
    ensures first >= 0 ==> 5000 <= ms <= 75000
    ensures first < 0 ==> -65000 <= ms <= 5000
  {
    (JsRem(first, 15) + 1) * 5000
  }

  /**
   * Blocks whose first pages lie in one residue class modulo 15 share a delay,
   * and so the delay repeats every 15 pages.
   */
  lemma {:induction false} DelayPeriodic(first: nat, k: nat)
    ensures FallbackDelay(first + 15 * k) == FallbackDelay(first)
  {
    if k > 0 {
      DelayPeriodic(first, k - 1);
      assert first + 15 * k == (first + 15 * (k - 1)) + 15;
    }
  }

  /**
   * The delay a browser timer applies to the expression: an empty list makes
   * `page[0]` undefined and the expression NaN, which a timer reads as 0, and a
   * negative delay also counts as 0.
   */
  function TimerDelay(pages: seq<int>): (ms: nat)
    ensures |pages| > 0 && pages[0] >= 0 ==> ms == FallbackDelay(pages[0])
    ensures |pages| == 0 ==> ms == 0
  {
    if |pages| == 0 then 0
    else var d := FallbackDelay(pages[0]); if d < 0 then 0 else d
  }
}
