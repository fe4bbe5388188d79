/** Putting one element into a sequence, the step of an insertion sort. */
module Insertion {

  function InsertedAt<T>(q: seq<T>, at: nat, x: T): seq<T>
    requires at <= |q|
  {
    q[..at] + [x] + q[at..]
  }

  lemma InsertedAtIndex<T>(q: seq<T>, at: nat, x: T, i: nat)
    requires at <= |q| && i <= |q|
    ensures |InsertedAt(q, at, x)| == |q| + 1
    ensures InsertedAt(q, at, x)[i] == if i < at then q[i] else if i == at then x else q[i - 1]
  {
  }

  lemma InsertedElements<T>(q: seq<T>, at: nat, x: T)
    requires at <= |q|
    ensures multiset(InsertedAt(q, at, x)) == multiset(q) + multiset{x}
  {
    assert q == q[..at] + q[at..];
  }
}
