/**
 * The chart's x-axis labels: the script keeps a label only where
 * `indexOf` finds it first, i.e. the first occurrence of each label.
 */
module Axis {
  import opened Sequences

  /** The filter applied to positions `i..` of `a`. */
  function KeepFirsts<T(==)>(a: seq<T>, i: nat): seq<T>
    requires i <= |a|
    decreases |a| - i
  {
    if i == |a| then []
    else (if FirstIndex(a, a[i]) == Some(i) then [a[i]] else []) + KeepFirsts(a, i + 1)
  }

  /** `labels.filter((v, i, a) => a.indexOf(v) === i)`. */
  function UniqueLabels<T(==)>(labels: seq<T>): seq<T>
  {
    KeepFirsts(labels, 0)
  }

  predicate NoDuplicates<T(==)>(s: seq<T>)
  {
    forall i, j :: 0 <= i < j < |s| ==> s[i] != s[j]
  }

  /** `x` first occurs in `a` strictly before `y` first does. */
  predicate FirstSeenBefore<T(==)>(a: seq<T>, x: T, y: T)
  {
    match (FirstIndex(a, x), FirstIndex(a, y))
    case (Some(i), Some(j)) => i < j
    case _ => false
  }

  /** `x` occurs in `a`, first at position `i` or later. */
  predicate FirstAtOrAfter<T(==)>(a: seq<T>, x: T, i: nat)
  {
    match FirstIndex(a, x)
    case Some(j) => i <= j
    case None => false
  }

  /** Each element's first occurrence comes before that of every element after it. */
  predicate OrderedByFirst<T(==)>(a: seq<T>, r: seq<T>)
  {
    forall k, l :: 0 <= k < l < |r| ==> FirstSeenBefore(a, r[k], r[l])
  }

  lemma {:induction false} KeepFirstsMembers<T>(a: seq<T>, i: nat)
    requires i <= |a|
    ensures forall x :: x in KeepFirsts(a, i) <==> FirstAtOrAfter(a, x, i)
    decreases |a| - i
  {
    if i < |a| {
      KeepFirstsMembers(a, i + 1);
      forall x
        ensures FirstAtOrAfter(a, x, i) <==> FirstAtOrAfter(a, x, i + 1) || (x == a[i] && FirstIndex(a, a[i]) == Some(i))
      {
      }
    }
  }

  lemma {:induction false} KeepFirstsOrder<T>(a: seq<T>, i: nat)
    requires i <= |a|
    ensures OrderedByFirst(a, KeepFirsts(a, i))
    decreases |a| - i
  {
    if i < |a| {
      KeepFirstsOrder(a, i + 1);
      var rest := KeepFirsts(a, i + 1);
      if FirstIndex(a, a[i]) == Some(i) {
        KeepFirstsMembers(a, i + 1);
        var r := [a[i]] + rest;
        assert KeepFirsts(a, i) == r;
        forall k, l | 0 <= k < l < |r|
          ensures FirstSeenBefore(a, r[k], r[l])
        {
          if k == 0 {
            assert r[l] in rest;
            assert FirstAtOrAfter(a, r[l], i + 1);
          } else {
            assert r[k] == rest[k - 1] && r[l] == rest[l - 1];
            assert OrderedByFirst(a, rest);
            assert FirstSeenBefore(a, rest[k - 1], rest[l - 1]);
          }
        }
      } else {
        assert KeepFirsts(a, i) == rest;
      }
    }
  }

  /** Every position from `i` on holds the first occurrence of its element. */
  predicate AllFirstFrom<T(==)>(a: seq<T>, i: nat)
  {
    forall j :: i <= j < |a| ==> FirstIndex(a, a[j]) == Some(j)
  }

  lemma AllFirstFromStep<T>(a: seq<T>, i: nat)
    requires i < |a|
    ensures AllFirstFrom(a, i) <==> FirstIndex(a, a[i]) == Some(i) && AllFirstFrom(a, i + 1)
  {
    if FirstIndex(a, a[i]) == Some(i) && AllFirstFrom(a, i + 1) {
      forall j | i <= j < |a|
        ensures FirstIndex(a, a[j]) == Some(j)
      {
        if j > i {
          assert i + 1 <= j;
        }
      }
    }
  }

  lemma {:induction false} KeepFirstsLength<T>(a: seq<T>, i: nat)
    requires i <= |a|
    ensures |KeepFirsts(a, i)| <= |a| - i
    ensures |KeepFirsts(a, i)| == |a| - i <==> AllFirstFrom(a, i)
    decreases |a| - i
  {
    if i < |a| {
      KeepFirstsLength(a, i + 1);
      AllFirstFromStep(a, i);
      var first := FirstIndex(a, a[i]) == Some(i);
      assert KeepFirsts(a, i) == (if first then [a[i]] else []) + KeepFirsts(a, i + 1);
    }
  }

  lemma AllFirstIffNoDuplicates<T>(a: seq<T>)
    ensures AllFirstFrom(a, 0) <==> NoDuplicates(a)
  {
    if NoDuplicates(a) {
      forall j | 0 <= j < |a|
        ensures FirstIndex(a, a[j]) == Some(j)
      {
        var k := FirstIndex(a, a[j]).value;
        assert a[k] == a[j];
      }
    }
    if AllFirstFrom(a, 0) {
      forall i, j | 0 <= i < j < |a|
        ensures a[i] != a[j]
      {
        assert FirstIndex(a, a[i]) == Some(i);
      }
    }
  }

  /**
   * The axis labels hold every label exactly once, in the order in which
   * each label first appears; they are as many as the labels exactly when
   * no label repeats.
   */
  lemma UniqueLabelsSpec<T>(labels: seq<T>)
    ensures var u := UniqueLabels(labels);
      && NoDuplicates(u)
      && (forall x :: x in u <==> x in labels)
      && OrderedByFirst(labels, u)
      && (|u| == |labels| <==> NoDuplicates(labels))
  {
    KeepFirstsMembers(labels, 0);
    KeepFirstsOrder(labels, 0);
    KeepFirstsLength(labels, 0);
    AllFirstIffNoDuplicates(labels);
    var u := UniqueLabels(labels);
    forall x
      ensures x in u <==> x in labels
    {
      assert FirstAtOrAfter(labels, x, 0) <==> x in labels;
    }
  }

  /**
   * `u` is the subsequence of `s` picked by the positions `f`: one
   * strictly increasing position per entry of `u`, holding that entry.
   */
  predicate PickedBy<T(==)>(u: seq<T>, s: seq<T>, f: seq<nat>)
  {
    && |f| == |u|
    && (forall k :: 0 <= k < |f| ==> f[k] < |s| && s[f[k]] == u[k])
    && (forall k, l :: 0 <= k < l < |f| ==> f[k] < f[l])
  }

  /**
   * The axis labels are a subsequence of the labels: each is picked at its
   * first position, and those positions increase.
   */
  lemma UniqueLabelsSubsequence<T>(labels: seq<T>)
    ensures exists f :: PickedBy(UniqueLabels(labels), labels, f)
  {
    UniqueLabelsSpec(labels);
    var u := UniqueLabels(labels);
    var f := seq(|u|, k requires 0 <= k < |u| =>
      match FirstIndex(labels, u[k]) case Some(i) => i case None => 0);
    forall k | 0 <= k < |u|
      ensures f[k] < |labels| && labels[f[k]] == u[k]
    {
      assert u[k] in labels;
    }
    forall k, l | 0 <= k < l < |u|
      ensures f[k] < f[l]
    {
      assert FirstSeenBefore(labels, u[k], u[l]);
    }
    assert PickedBy(u, labels, f);
  }
}
