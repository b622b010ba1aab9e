/**
 * Boolean-mask indexing, as `trans_cas[idx]` and `pred[idx]` do it in
 * train/train.py: keep the elements whose mask entry is true, in order.
 * Every function recurses on the last element so that extending a prefix
 * by one element is one unfolding.
 */
module Selection {

  /** Number of true entries of a mask (`sum(idx)` in the source). */
  function Count(mask: seq<bool>): (n: nat)
    ensures n <= |mask|
    ensures n == 0 <==> forall i :: 0 <= i < |mask| ==> !mask[i]
  {
    if mask == [] then 0
    else
      var n := |mask| - 1;
      Count(mask[..n]) + (if mask[n] then 1 else 0)
  }

  /** The elements of `xs` at the true entries of `mask`, in order. */
  function Select<T>(xs: seq<T>, mask: seq<bool>): (r: seq<T>)
    requires |xs| == |mask|
    ensures |r| == Count(mask)
  {
    if xs == [] then []
    else
      var n := |xs| - 1;
      Select(xs[..n], mask[..n]) + (if mask[n] then [xs[n]] else [])
  }

  /** The indices of the true entries of `mask`, in increasing order. */
  function Positions(mask: seq<bool>): (p: seq<nat>)
    ensures |p| == Count(mask)
    ensures forall k :: 0 <= k < |p| ==> p[k] < |mask| && mask[p[k]]
    ensures forall k, l :: 0 <= k < l < |p| ==> p[k] < p[l]
  {
    if mask == [] then []
    else
      var n := |mask| - 1;
      Positions(mask[..n]) + (if mask[n] then [n] else [])
  }

  /** Every true entry of the mask is listed by Positions. */
  lemma {:induction false} PositionsComplete(mask: seq<bool>, i: nat)
    requires i < |mask| && mask[i]
    ensures i in Positions(mask)
  {
    var n := |mask| - 1;
    if i < n {
      PositionsComplete(mask[..n], i);
    }
  }

  /** The k-th selected element is the element at the k-th true position. */
  lemma {:induction false} SelectAt<T>(xs: seq<T>, mask: seq<bool>, k: nat)
    requires |xs| == |mask| && k < Count(mask)
    ensures Select(xs, mask)[k] == xs[Positions(mask)[k]]
  {
    var n := |xs| - 1;
    if k < Count(mask[..n]) {
      SelectAt(xs[..n], mask[..n], k);
    }
  }
}
