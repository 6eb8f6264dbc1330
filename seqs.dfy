/** `Array.prototype.filter`, `find` and `some` over the application's lists, and the
    lookups of a document store that answer with the first match in insertion order. */
module Seqs {

  import opened Js

  /** The index of the first element satisfying `p` (`findIndex`), if any. */
  function FirstIndex<T>(xs: seq<T>, p: T -> bool): (r: Option<nat>)
    ensures r.Some? ==> r.value < |xs| && p(xs[r.value])
    ensures r.Some? ==> forall k :: 0 <= k < r.value ==> !p(xs[k])
    ensures r.None? ==> forall k :: 0 <= k < |xs| ==> !p(xs[k])
  {
    if xs == [] then None
    else if p(xs[0]) then Some(0)
    else match FirstIndex(xs[1..], p)
      case None => None
      case Some(i) => Some(i + 1)
  }

  /** `R` holds of every pair of elements, the earlier one first. */
  ghost predicate Pairwise<T>(xs: seq<T>, R: (T, T) -> bool)
  {
    forall i, j :: 0 <= i < j < |xs| ==> R(xs[i], xs[j])
  }

  /** `xs.filter(p)`: the elements satisfying `p`, in their original order. */
  function Filter<T>(xs: seq<T>, p: T -> bool): (r: seq<T>)
    ensures |r| <= |xs|
    ensures forall k :: 0 <= k < |r| ==> r[k] in xs && p(r[k])
    ensures forall k :: 0 <= k < |xs| && p(xs[k]) ==> xs[k] in r
  {
    if xs == [] then [] else (if p(xs[0]) then [xs[0]] else []) + Filter(xs[1..], p)
  }

  /** Filtering distributes over concatenation, so it never reorders what it keeps. */
  lemma {:induction false} FilterConcat<T>(xs: seq<T>, ys: seq<T>, p: T -> bool)
    ensures Filter(xs + ys, p) == Filter(xs, p) + Filter(ys, p)
  {
    if xs != [] {
      assert (xs + ys)[0] == xs[0] && (xs + ys)[1..] == xs[1..] + ys;
      FilterConcat(xs[1..], ys, p);
      var h := if p(xs[0]) then [xs[0]] else [];
      assert Filter(xs + ys, p) == h + Filter(xs[1..] + ys, p);
      assert Filter(xs, p) == h + Filter(xs[1..], p);
    } else {
      assert xs + ys == ys;
    }
  }

  /** A list whose every element passes the test is kept whole. */
  lemma {:induction false} FilterKeepsAll<T>(xs: seq<T>, p: T -> bool)
    requires forall k :: 0 <= k < |xs| ==> p(xs[k])
    ensures Filter(xs, p) == xs
  {
    if xs != [] {
      FilterKeepsAll(xs[1..], p);
    }
  }

  /** Filtering keeps a pairwise relation such as "distinct identifiers". */
  lemma {:induction false} FilterPairwise<T>(xs: seq<T>, p: T -> bool, R: (T, T) -> bool)
    requires Pairwise(xs, R)
    ensures Pairwise(Filter(xs, p), R)
  {
    if xs != [] {
      FilterPairwise(xs[1..], p, R);
      var rest := Filter(xs[1..], p);
      if p(xs[0]) {
        var r := [xs[0]] + rest;
        forall i, j | 0 <= i < j < |r|
          ensures R(r[i], r[j])
        {
          if i == 0 {
            var m :| 0 <= m < |xs[1..]| && xs[1..][m] == r[j];
            assert R(xs[0], xs[1 + m]);
          } else {
            assert r[i] == rest[i - 1] && r[j] == rest[j - 1];
          }
        }
      } else {
        assert Filter(xs, p) == rest;
      }
    }
  }
}
