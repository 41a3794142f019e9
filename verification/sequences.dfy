/**
 * The PHP and JavaScript built-ins the pipeline leans on, stated once:
 * `array_search` / `indexOf` (first position of a value), `max` / `min`
 * over a non-empty list, and `array_chunk`.
 */
module Sequences {

  datatype Option<+T> = None | Some(value: T)

  /** The first position at or after `k` where `s` holds `v`. */
  function FirstIndexFrom<T(==)>(s: seq<T>, v: T, k: nat): (r: Option<nat>)
    requires k <= |s|
    ensures r.None? ==> forall j :: k <= j < |s| ==> s[j] != v
    ensures r.Some? ==> k <= r.value < |s| && s[r.value] == v
    ensures r.Some? ==> forall j :: k <= j < r.value ==> s[j] != v
    decreases |s| - k
  {
    if k == |s| then None
    else if s[k] == v then Some(k)
    else FirstIndexFrom(s, v, k + 1)
  }

  /**
   * First position of `v` in `s`. PHP's `array_search` answers `false` and
   * JavaScript's `indexOf` answers -1 where this answers None.
   */
  function FirstIndex<T(==)>(s: seq<T>, v: T): (r: Option<nat>)
    ensures r.Some? <==> v in s
    ensures r.Some? ==> r.value < |s| && s[r.value] == v
    ensures r.Some? ==> forall j :: 0 <= j < r.value ==> s[j] != v
  {
    FirstIndexFrom(s, v, 0)
  }

  /** PHP's `max` on a non-empty array of prices. */
  function Max(s: seq<real>): (m: real)
    requires |s| > 0
    ensures m in s
    ensures forall i :: 0 <= i < |s| ==> s[i] <= m
  {
    if |s| == 1 then s[0]
    else
      var rest := Max(s[1..]);
      if s[0] >= rest then s[0] else rest
  }

  /** PHP's `min` on a non-empty array of prices. */
  function Min(s: seq<real>): (m: real)
    requires |s| > 0
    ensures m in s
    ensures forall i :: 0 <= i < |s| ==> m <= s[i]
  {
    if |s| == 1 then s[0]
    else
      var rest := Min(s[1..]);
      if s[0] <= rest then s[0] else rest
  }

  /** Concatenation of a list of rows. */
  function Flatten<T>(rows: seq<seq<T>>): seq<T>
  {
    if |rows| == 0 then [] else rows[0] + Flatten(rows[1..])
  }

  /**
   * PHP's `array_chunk(s, n)`: consecutive rows of `n` elements, the last
   * one possibly shorter, none empty.
   */
  function Chunk<T>(s: seq<T>, n: nat): (rows: seq<seq<T>>)
    requires n > 0
    ensures Flatten(rows) == s
    ensures |rows| == 0 <==> |s| == 0
    ensures forall i :: 0 <= i < |rows| ==> 0 < |rows[i]| <= n
    ensures forall i :: 0 <= i < |rows| - 1 ==> |rows[i]| == n
    ensures forall i, x :: 0 <= i < |rows| && x in rows[i] ==> x in s
    decreases |s|
  {
    if |s| == 0 then []
    else if |s| <= n then [s]
    else
      var rest := Chunk(s[n..], n);
      assert forall i, x :: 1 <= i < |rest| + 1 && x in ([s[..n]] + rest)[i] ==> x in s[n..];
      [s[..n]] + rest
  }

  /**
   * The shape of `array_chunk` depends only on the length of its input, so
   * two lists of equal length are split into rows of equal lengths.
   */
  lemma {:induction false} ChunkShape<T, U>(a: seq<T>, b: seq<U>, n: nat)
    requires n > 0 && |a| == |b|
    ensures |Chunk(a, n)| == |Chunk(b, n)|
    ensures forall i :: 0 <= i < |Chunk(a, n)| ==> |Chunk(a, n)[i]| == |Chunk(b, n)[i]|
    decreases |a|
  {
    if |a| > n {
      ChunkShape(a[n..], b[n..], n);
    }
  }
}
