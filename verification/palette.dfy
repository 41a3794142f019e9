/**
 * The twelve-colour scale of both price tables, green for the cheapest
 * price to orange for the dearest, and the index a price maps to.
 */
module Palette {

  const Colors: seq<string> := [
    "#8bc34a", "#9ccc65", "#aed581", "#c5e1a5", "#e6ee9c", "#fff59d",
    "#ffe082", "#ffcc80", "#ffb74d", "#ffa726", "#ff9800", "#fb8c00"
  ]

  /** PHP's `(int)` cast of a float: truncation toward zero. */
  function Trunc(x: real): int
  {
    if x >= 0.0 then x.Floor else -((-x).Floor)
  }

  /**
   * The colour index of price `p` between the series minimum `lo` and
   * maximum `hi`: the position of `p` between them scaled to 0..11 and
   * truncated. The source divides by `hi - lo`, so it needs `lo < hi`.
   */
  function ColorIndex(p: real, lo: real, hi: real): (i: int)
    requires lo < hi && lo <= p <= hi
    ensures 0 <= i < |Colors|
  {
    var t := (p - lo) / (hi - lo);
    FractionBounds(p - lo, hi - lo);
    Trunc(t * ((|Colors| - 1) as real))
  }

  /** A share of a positive whole lies between 0 and 1. */
  lemma FractionBounds(part: real, whole: real)
    requires 0.0 <= part <= whole && whole > 0.0
    ensures 0.0 <= part / whole <= 1.0
  {
    var q := part / whole;
    assert q * whole == part;
  }

  /** The minimum price gets the first colour and the maximum price the last. */
  lemma ColorIndexEnds(lo: real, hi: real)
    requires lo < hi
    ensures ColorIndex(lo, lo, hi) == 0
    ensures ColorIndex(hi, lo, hi) == |Colors| - 1
  {
    assert (hi - lo) / (hi - lo) == 1.0;
  }

  /** A dearer price never gets an earlier colour. */
  lemma ColorIndexMonotone(p: real, q: real, lo: real, hi: real)
    requires lo < hi && lo <= p <= q <= hi
    ensures ColorIndex(p, lo, hi) <= ColorIndex(q, lo, hi)
  {
    var tp, tq := (p - lo) / (hi - lo), (q - lo) / (hi - lo);
    assert tp <= tq by {
      assert tp * (hi - lo) == p - lo;
      assert tq * (hi - lo) == q - lo;
    }
    assert 0.0 <= tp by {
      assert tp * (hi - lo) == p - lo;
    }
  }
}
