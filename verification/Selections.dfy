/** What it means that one list is another with some elements left out. */
module Selections {

  /** `r` is `q` at the positions `at`, in order. */
  ghost predicate Selects<T>(q: seq<T>, at: seq<nat>, r: seq<T>) {
    && |at| == |r|
    && (forall k :: 0 <= k < |at| ==> at[k] < |q| && r[k] == q[at[k]])
    && (forall j, k :: 0 <= j < k < |at| ==> at[j] < at[k])
  }

  lemma SelectsSnoc<T>(q: seq<T>, at: seq<nat>, r: seq<T>, x: T)
    requires Selects(q, at, r)
    ensures Selects(q + [x], at, r) && Selects(q + [x], at + [|q|], r + [x])
  {
  }

  /** The positions of the elements to keep, in order. */
  function Where<T>(q: seq<T>, keep: T -> bool): (at: seq<nat>)
    ensures forall k :: 0 <= k < |at| ==> at[k] < |q| && keep(q[at[k]])
    ensures forall j, k :: 0 <= j < k < |at| ==> at[j] < at[k]
  {
    if q == [] then []
    else
      var n := |q| - 1;
      if keep(q[n]) then Where(q[..n], keep) + [n] else Where(q[..n], keep)
  }

  lemma {:induction false} WhereKept<T>(q: seq<T>, keep: T -> bool, i: nat)
    ensures i in Where(q, keep) <==> i < |q| && keep(q[i])
  {
    if q != [] {
      WhereKept(q[..|q| - 1], keep, i);
    }
  }
}
