/** The order `sort.Strings` sorts by, and the one sorted list of a multiset of strings. */
module StringOrder {
  import opened Insertion

  predicate Le(a: string, b: string) {
    a == "" || (b != "" && (a[0] < b[0] || (a[0] == b[0] && Le(a[1..], b[1..]))))
  }

  lemma {:induction false} LeTotal(a: string, b: string)
    ensures Le(a, a)
    ensures Le(a, b) || Le(b, a)
  {
    if a != "" {
      if b != "" {
        LeTotal(a[1..], b[1..]);
      } else {
        LeTotal(a[1..], "");
      }
    }
  }

  lemma {:induction false} LeAntisymmetric(a: string, b: string)
    requires Le(a, b) && Le(b, a)
    ensures a == b
  {
    if a != "" {
      LeAntisymmetric(a[1..], b[1..]);
      assert a == [a[0]] + a[1..] && b == [b[0]] + b[1..];
    }
  }

  lemma {:induction false} LeTransitive(a: string, b: string, c: string)
    requires Le(a, b) && Le(b, c)
    ensures Le(a, c)
  {
    if a != "" && a[0] == b[0] == c[0] {
      LeTransitive(a[1..], b[1..], c[1..]);
    }
  }

  lemma {:induction false} PrefixLe(a: string, b: string)
    ensures Le(a, a + b)
  {
    if a != "" {
      assert (a + b)[1..] == a[1..] + b;
      PrefixLe(a[1..], b);
    }
  }

  /** A least element. */
  ghost function Least(m: multiset<string>): (x: string)
    requires m != multiset{}
    ensures x in m && forall y :: y in m ==> Le(x, y)
    decreases |m|
  {
    var x :| x in m;
    var rest := m - multiset{x};
    assert forall y :: y in m ==> y == x || y in rest;
    LeTotal(x, x);
    if rest == multiset{} then x
    else
      var z := Least(rest);
      LeTotal(x, z);
      assert Le(x, z) ==> forall y :: y in rest ==> Le(x, y) by {
        forall y | Le(x, z) && y in rest ensures Le(x, y) { LeTransitive(x, z, y); }
      }
      if Le(x, z) then x else z
  }

  ghost predicate Sorted(q: seq<string>) {
    forall i, j :: 0 <= i < j < |q| ==> Le(q[i], q[j])
  }

  ghost function SortedOf(m: multiset<string>): seq<string>
    decreases |m|
  {
    if m == multiset{} then [] else [Least(m)] + SortedOf(m - multiset{Least(m)})
  }

  lemma {:induction false} SortedOfKeepsElements(m: multiset<string>)
    ensures multiset(SortedOf(m)) == m
    decreases |m|
  {
    if m != multiset{} {
      SortedOfKeepsElements(m - multiset{Least(m)});
    }
  }

  lemma LeastIsFirst(q: seq<string>)
    requires q != [] && Sorted(q)
    ensures multiset(q) != multiset{} && Least(multiset(q)) == q[0]
  {
    var x := Least(multiset(q));
    assert q[0] in multiset(q);
    var i :| 0 <= i < |q| && q[i] == x;
    LeTotal(x, x);
    LeAntisymmetric(q[0], x);
  }

  /** There is only one sorted list with given elements. */
  lemma {:induction false} SortedIsUnique(q: seq<string>)
    requires Sorted(q)
    ensures q == SortedOf(multiset(q))
  {
    if q != [] {
      LeastIsFirst(q);
      assert q == [q[0]] + q[1..];
      assert multiset(q) - multiset{q[0]} == multiset(q[1..]);
      SortedIsUnique(q[1..]);
    }
  }

  lemma ConsSorted(x: string, q: seq<string>)
    requires Sorted(q) && forall j :: 0 <= j < |q| ==> Le(x, q[j])
    ensures Sorted([x] + q)
  {
  }

  lemma {:induction false} SortedOfIsSorted(m: multiset<string>)
    ensures Sorted(SortedOf(m))
    decreases |m|
  {
    if m != multiset{} {
      var x := Least(m);
      var q := SortedOf(m - multiset{x});
      SortedOfIsSorted(m - multiset{x});
      SortedOfKeepsElements(m - multiset{x});
      forall j | 0 <= j < |q| ensures Le(x, q[j]) {
        assert q[j] in multiset(q);
      }
      ConsSorted(x, q);
    }
  }

  /** Equal sorted lists come from equal elements. */
  lemma SortedOfIsInjective(m: multiset<string>, n: multiset<string>)
    ensures SortedOf(m) == SortedOf(n) <==> m == n
  {
    SortedOfKeepsElements(m);
    SortedOfKeepsElements(n);
  }

  lemma InsertInOrder(q: seq<string>, at: nat, x: string)
    requires Sorted(q) && at <= |q|
    requires (forall j :: 0 <= j < at ==> Le(q[j], x)) && (at < |q| ==> Le(x, q[at]))
    ensures Sorted(InsertedAt(q, at, x))
  {
    forall j | at <= j < |q| ensures Le(x, q[j]) {
      if at < j {
        LeTransitive(x, q[at], q[j]);
      }
    }
    forall i, j | 0 <= i < j < |InsertedAt(q, at, x)| ensures Le(InsertedAt(q, at, x)[i], InsertedAt(q, at, x)[j]) {
      InsertedAtIndex(q, at, x, i);
      InsertedAtIndex(q, at, x, j);
    }
  }

  /** The library sort. */
  method SortStrings(s: seq<string>) returns (r: seq<string>)
    ensures r == SortedOf(multiset(s))
  {
    r := [];
    for i := 0 to |s|
      invariant Sorted(r) && multiset(r) == multiset(s[..i])
    {
      var at := 0;
      while at < |r| && Le(r[at], s[i])
        invariant at <= |r| && forall j :: 0 <= j < at ==> Le(r[j], s[i])
      {
        at := at + 1;
      }
      if at < |r| {
        LeTotal(r[at], s[i]);
      }
      InsertInOrder(r, at, s[i]);
      InsertedElements(r, at, s[i]);
      assert s[..i + 1] == s[..i] + [s[i]];
      r := InsertedAt(r, at, s[i]);
    }
    assert s[..|s|] == s;
    SortedIsUnique(r);
  }

  /** The keys of a map in the order the code visits them. */
  ghost function SortedKeys(keys: set<string>): seq<string> {
    SortedOf(multiset(keys))
  }

  lemma SortedKeysAreTheKeys(keys: set<string>)
    ensures forall k :: k in SortedKeys(keys) <==> k in keys
    ensures |SortedKeys(keys)| == |keys|
  {
    SortedOfKeepsElements(multiset(keys));
    assert |multiset(SortedKeys(keys))| == |multiset(keys)|;
    forall k ensures k in SortedKeys(keys) <==> k in keys {
      assert k in SortedKeys(keys) <==> k in multiset(SortedKeys(keys));
    }
  }

  /** Collects the keys of a map in any order and sorts them. */
  method CollectSortedKeys(keys: set<string>) returns (r: seq<string>)
    ensures r == SortedKeys(keys)
  {
    r := [];
    var rest := keys;
    while rest != {}
      invariant rest <= keys && multiset(r) == multiset(keys - rest)
      decreases rest
    {
      var k :| k in rest;
      rest := rest - {k};
      assert keys - rest == keys - (rest + {k}) + {k};
      r := r + [k];
    }
    assert keys - rest == keys;
    r := SortStrings(r);
  }
}
