/**
  Go slices over real arrays: a window of `len` cells from `off` on, with the cells up to the end
  of the backing array as spare capacity. `Append` and `RemoveAt` write in place exactly when Go does.
*/
module GoSlices {

  datatype Slice<T> = Nil | Slice(arr: array<T>, off: nat, len: nat)

  predicate Ok<T>(s: Slice<T>) {
    s.Slice? ==> s.off + s.len <= s.arr.Length
  }

  function Len<T>(s: Slice<T>): nat {
    if s.Nil? then 0 else s.len
  }

  /** The backing array, as a frame. */
  function Backing<T>(s: Slice<T>): set<object> {
    if s.Nil? then {} else {s.arr}
  }

  function View<T>(s: Slice<T>): seq<T>
    requires Ok(s)
    reads Backing(s)
  {
    if s.Nil? then [] else s.arr[s.off..s.off + s.len]
  }

  /** `append` of `n` elements writes into the spare capacity. */
  predicate Fits<T>(s: Slice<T>, n: nat)
    requires Ok(s)
  {
    if s.Nil? then n == 0 else s.off + s.len + n <= s.arr.Length
  }

  /** `q` without its element at `i`. */
  function Without<T>(q: seq<T>, i: nat): (r: seq<T>)
    requires i < |q|
    ensures |r| == |q| - 1
  {
    q[..i] + q[i + 1..]
  }

  /** `copy(arr[at:], xs)`. */
  method WriteAt<T>(arr: array<T>, at: nat, xs: seq<T>)
    requires at + |xs| <= arr.Length
    modifies arr
    ensures forall k :: 0 <= k < arr.Length ==> arr[k] == if at <= k < at + |xs| then xs[k - at] else old(arr[k])
  {
    for k := 0 to |xs|
      invariant forall j :: 0 <= j < arr.Length ==> arr[j] == if at <= j < at + k then xs[j - at] else old(arr[j])
    {
      arr[at + k] := xs[k];
    }
  }

  /** `append(s, xs...)`; `growth` is the spare capacity the runtime adds when it moves to a new array. */
  method Append<T(0)>(s: Slice<T>, xs: seq<T>, growth: nat) returns (r: Slice<T>)
    requires Ok(s)
    modifies if Fits(s, |xs|) then Backing(s) else {}
    ensures Ok(r) && View(r) == old(View(s)) + xs
    ensures Fits(s, |xs|) ==> Backing(r) == Backing(s)
    ensures Fits(s, |xs|) && s.Slice? ==>
      && r == Slice(s.arr, s.off, s.len + |xs|)
      && (forall k :: 0 <= k < s.arr.Length && !(s.off + s.len <= k < s.off + s.len + |xs|) ==> s.arr[k] == old(s.arr[k]))
    ensures !Fits(s, |xs|) ==> r.Slice? && fresh(r.arr)
    ensures s.Nil? && xs == [] ==> r == Nil
  {
    if Fits(s, |xs|) {
      if s.Nil? {
        return Nil;
      }
      WriteAt(s.arr, s.off + s.len, xs);
      r := Slice(s.arr, s.off, s.len + |xs|);
    } else {
      var kept := View(s);
      var arr := new T[|kept| + |xs| + growth];
      WriteAt(arr, 0, kept);
      WriteAt(arr, |kept|, xs);
      r := Slice(arr, 0, |kept| + |xs|);
    }
  }

  /** `append(s[:i], s[i+1:]...)`: later cells move down in place and the last one keeps its old value. */
  method RemoveAt<T>(s: Slice<T>, i: nat) returns (r: Slice<T>)
    requires Ok(s) && s.Slice? && i < s.len
    modifies s.arr
    ensures Ok(r) && r == Slice(s.arr, s.off, s.len - 1) && View(r) == Without(old(View(s)), i)
    ensures forall k :: 0 <= k < s.arr.Length && !(s.off + i <= k < s.off + s.len - 1) ==> s.arr[k] == old(s.arr[k])
  {
    var lo, hi := s.off + i, s.off + s.len - 1;
    for k := lo to hi
      invariant forall j :: 0 <= j < s.arr.Length ==> s.arr[j] == if lo <= j < k then old(s.arr[j + 1]) else old(s.arr[j])
    {
      s.arr[k] := s.arr[k + 1];
    }
    r := Slice(s.arr, s.off, s.len - 1);
  }
}
