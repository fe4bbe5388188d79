/**
  Merging hook groups on real slices. The fields of a hook record have different element types, so
  their arrays are never shared and each is merged on its own; one of them is modelled.
*/
module HookMerge {
  import opened Wrappers
  import opened GoSlices
  import opened Hooks

  function Concat<T>(lists: seq<seq<T>>): seq<T> {
    if lists == [] then [] else Concat(lists[..|lists| - 1]) + lists[|lists| - 1]
  }

  /** The hook lists of the groups, concatenated, are the merged hooks. */
  lemma {:induction false} ConcatIsMerged<W, I, O, E>(groups: seq<Group<W, I, O, E>>, lists: seq<seq<Option<Hook<W, I, O, E>>>>)
    requires |lists| == |groups| && forall i :: 0 <= i < |groups| ==> lists[i] == groups[i].hooks
    ensures Concat(lists) == Merged(groups)
  {
    if groups != [] {
      ConcatIsMerged(groups[..|groups| - 1], lists[..|lists| - 1]);
    }
  }

  /** `append(h.Field, other.Field...)`. On its own it writes into the receiver's spare capacity when the hooks fit. */
  method Merge<T(0)>(h: Slice<T>, other: Slice<T>, growth: nat) returns (r: Slice<T>)
    requires Ok(h) && Ok(other)
    modifies if Fits(h, Len(other)) then Backing(h) else {}
    ensures Ok(r) && View(r) == old(View(h)) + old(View(other))
    ensures Fits(h, Len(other)) ==> Backing(r) == Backing(h)
    ensures Fits(h, Len(other)) && h.Slice? ==>
      && r == Slice(h.arr, h.off, h.len + Len(other))
      && forall k :: 0 <= k < h.arr.Length && !(h.off + h.len <= k < h.off + h.len + Len(other)) ==> h.arr[k] == old(h.arr[k])
    ensures !Fits(h, Len(other)) ==> r.Slice? && fresh(r.arr)
  {
    r := Append(h, View(other), growth);
  }

  /** One turn of the merging loop, on a slice that is nil or the loop's own. */
  method MergeInto<T(0)>(out: Slice<T>, other: Slice<T>, growth: nat) returns (r: Slice<T>)
    requires Ok(out) && Ok(other)
    modifies Backing(out)
    ensures Ok(r) && View(r) == old(View(out)) + old(View(other)) && fresh(Backing(r) - Backing(out))
  {
    r := Merge(out, other, growth);
  }

  /**
    All groups in registration order. The accumulator starts nil, so its first append moves to a
    new array and no registered group's array is ever written: nothing is in the frame.
  */
  method MergedHooks<T(0)>(groups: seq<Slice<T>>, growth: nat -> nat, ghost lists: seq<seq<T>>) returns (out: Slice<T>)
    requires |lists| == |groups| && forall i :: 0 <= i < |groups| ==> Ok(groups[i]) && View(groups[i]) == lists[i]
    ensures Ok(out) && View(out) == Concat(lists) && fresh(Backing(out))
    ensures forall i :: 0 <= i < |groups| ==> View(groups[i]) == lists[i]
  {
    out := Slice.Nil;
    for i := 0 to |groups|
      invariant Ok(out) && fresh(Backing(out)) && View(out) == Concat(lists[..i])
    {
      assert lists[..i + 1][..i] == lists[..i];
      assert View(groups[i]) == lists[i];
      out := MergeInto(out, groups[i], growth(i));
    }
    assert lists[..|groups|] == lists;
  }
}
