/** Sums of a natural-number weight over a finite set, and numbers outside one. */
module FiniteSums {

  ghost function Sum<T>(s: set<T>, weight: T -> nat): nat {
    if s == {} then 0 else var x :| x in s; weight(x) + Sum(s - {x}, weight)
  }

  lemma {:induction false} SumRemove<T>(s: set<T>, weight: T -> nat, x: T)
    requires x in s
    ensures Sum(s, weight) == weight(x) + Sum(s - {x}, weight)
    decreases |s|
  {
    var y :| y in s && Sum(s, weight) == weight(y) + Sum(s - {y}, weight);
    if y != x {
      SumRemove(s - {y}, weight, x);
      SumRemove(s - {x}, weight, y);
      assert s - {y} - {x} == s - {x} - {y};
    }
  }

  lemma {:induction false} SumAtMost<T>(s: set<T>, f: T -> nat, g: T -> nat)
    requires forall x :: x in s ==> f(x) <= g(x)
    ensures Sum(s, f) <= Sum(s, g)
    decreases |s|
  {
    if s != {} {
      var x :| x in s;
      SumRemove(s, f, x);
      SumRemove(s, g, x);
      SumAtMost(s - {x}, f, g);
    }
  }

  /** One weight goes down and none goes up. */
  lemma SumBelow<T>(s: set<T>, f: T -> nat, g: T -> nat, x: T)
    requires x in s && f(x) < g(x)
    requires forall y :: y in s ==> f(y) <= g(y)
    ensures Sum(s, f) < Sum(s, g)
  {
    SumRemove(s, f, x);
    SumRemove(s, g, x);
    SumAtMost(s - {x}, f, g);
  }

  lemma SmallerSet<T>(a: set<T>, b: set<T>)
    requires a <= b
    ensures |a| <= |b|
  {
    assert b == a + (b - a);
  }

  /** A number above every member: a source of fresh identifiers. */
  lemma {:induction false} UpperBound(ids: set<nat>) returns (b: nat)
    ensures forall x :: x in ids ==> x < b
    decreases |ids|
  {
    if ids == {} {
      b := 0;
    } else {
      var x :| x in ids;
      var c := UpperBound(ids - {x});
      b := if c > x then c else x + 1;
      assert ids == (ids - {x}) + {x};
    }
  }
}
