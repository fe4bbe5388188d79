/** What is common to the configuration digests: sorted key tables and sorted trimmed keys. */
module Digests {
  import opened Selections
  import opened StringOrder
  import opened Wrappers
  import Names

  /** The input of a digest; `NoInput` is the empty fingerprint of an empty configuration. */
  datatype Input<R> = NoInput | Shot(servers: seq<(string, R)>, extraClients: seq<string>)

  // ----- a map as a table, by sorted key

  function RowsFor<R>(keys: seq<string>, rows: map<string, R>): seq<(string, R)>
    requires forall k :: k in keys ==> k in rows
  {
    if keys == [] then [] else RowsFor(keys[..|keys| - 1], rows) + [(keys[|keys| - 1], rows[keys[|keys| - 1]])]
  }

  ghost function Table<R>(rows: map<string, R>): seq<(string, R)> {
    SortedKeysAreTheKeys(rows.Keys);
    RowsFor(SortedKeys(rows.Keys), rows)
  }

  lemma {:induction false} RowsForAt<R>(keys: seq<string>, rows: map<string, R>, i: nat)
    requires (forall k :: k in keys ==> k in rows) && i < |keys|
    ensures |RowsFor(keys, rows)| == |keys| && RowsFor(keys, rows)[i] == (keys[i], rows[keys[i]])
  {
    if |keys| > 1 {
      RowsForAt(keys[..|keys| - 1], rows, if i < |keys| - 1 then i else 0);
    }
  }

  lemma TableHasRow<R>(rows: map<string, R>, k: string)
    ensures k in rows <==> exists r :: (k, r) in Table(rows)
    ensures k in rows ==> (k, rows[k]) in Table(rows)
    ensures forall r :: (k, r) in Table(rows) ==> k in rows && rows[k] == r
  {
    var keys := SortedKeys(rows.Keys);
    SortedKeysAreTheKeys(rows.Keys);
    if k in rows {
      var i :| 0 <= i < |keys| && keys[i] == k;
      RowsForAt(keys, rows, i);
      assert Table(rows)[i] in Table(rows);
    }
    forall r | (k, r) in Table(rows) ensures k in rows && rows[k] == r {
      var i :| 0 <= i < |Table(rows)| && Table(rows)[i] == (k, r);
      if keys != [] {
        RowsForAt(keys, rows, if i < |keys| then i else 0);
      }
    }
  }

  /** Equal tables come from equal maps, so a table is independent of any iteration order and loses nothing. */
  lemma TableIsInjective<R>(a: map<string, R>, b: map<string, R>)
    ensures Table(a) == Table(b) <==> a == b
  {
    if Table(a) == Table(b) {
      forall k ensures k in a <==> k in b {
        TableHasRow(a, k);
        TableHasRow(b, k);
      }
      forall k | k in a ensures a[k] == b[k] {
        TableHasRow(a, k);
        TableHasRow(b, k);
      }
    }
  }

  lemma MapsAgreeIff<R>(a: map<string, R>, b: map<string, R>)
    ensures a == b <==> a.Keys == b.Keys && forall k :: k in a && k in b ==> a[k] == b[k]
  {
  }

  /** The input for given server rows and extra client names. */
  ghost function InputOf<R>(rows: map<string, R>, extra: seq<string>): Input<R> {
    if |rows| == 0 && extra == [] then NoInput else Shot(Table(rows), SortedOf(multiset(extra)))
  }

  lemma NoInputIff<R>(rows: map<string, R>, extra: seq<string>)
    ensures InputOf(rows, extra) == NoInput <==> rows == map[] && multiset(extra) == multiset([])
  {
    assert |rows| == 0 <==> rows == map[];
    assert |multiset(extra)| == |extra|;
  }

  lemma ShotsAgreeIff<R>(a: map<string, R>, x: seq<string>, b: map<string, R>, y: seq<string>)
    requires InputOf(a, x).Shot? && InputOf(b, y).Shot?
    ensures InputOf(a, x) == InputOf(b, y) <==> a == b && multiset(x) == multiset(y)
  {
    TableIsInjective(a, b);
    SortedOfIsInjective(multiset(x), multiset(y));
  }

  /** Inputs lose nothing of the rows and nothing of the extra names but their order. */
  lemma InputsAgreeIff<R>(a: map<string, R>, x: seq<string>, b: map<string, R>, y: seq<string>)
    ensures InputOf(a, x) == InputOf(b, y) <==> a == b && multiset(x) == multiset(y)
  {
    NoInputIff(a, x);
    NoInputIff(b, y);
    if InputOf(a, x).Shot? && InputOf(b, y).Shot? {
      ShotsAgreeIff(a, x, b, y);
    }
  }

  // ----- trimmed keys of a map

  ghost function Trimmed(k: string): multiset<string> {
    if Names.TrimSpace(k) == "" then multiset{} else multiset{Names.TrimSpace(k)}
  }

  /** The keys, trimmed, without the empty ones; keys that trim to the same text are all kept. */
  ghost function TrimmedAll(keys: set<string>): multiset<string> {
    if keys == {} then multiset{} else var k :| k in keys; TrimmedAll(keys - {k}) + Trimmed(k)
  }

  lemma {:induction false} TrimmedAllTakes(keys: set<string>, k: string)
    requires k in keys
    ensures TrimmedAll(keys) == TrimmedAll(keys - {k}) + Trimmed(k)
    decreases |keys|
  {
    var j :| j in keys && TrimmedAll(keys) == TrimmedAll(keys - {j}) + Trimmed(j);
    if j != k {
      TrimmedAllTakes(keys - {j}, k);
      TrimmedAllTakes(keys - {k}, j);
      assert keys - {j} - {k} == keys - {k} - {j};
    }
  }

  lemma Regroup(all: multiset<string>, got: multiset<string>, left: multiset<string>, one: multiset<string>)
    requires all == got + (left + one)
    ensures all == (got + one) + left
  {
  }

  /** The keys that trim to `x`. */
  function TrimmingTo(keys: set<string>, x: string): set<string> {
    set k | k in keys && Names.TrimSpace(k) == x
  }

  lemma OneKeyMore(keys: set<string>, k: string, x: string)
    requires k in keys
    ensures |TrimmingTo(keys, x)| == |TrimmingTo(keys - {k}, x)| + if Names.TrimSpace(k) == x then 1 else 0
  {
    var less := TrimmingTo(keys - {k}, x);
    assert k !in less;
    if Names.TrimSpace(k) == x {
      assert TrimmingTo(keys, x) == less + {k};
    } else {
      assert TrimmingTo(keys, x) == less;
    }
  }

  /** A trimmed key is there as often as there are keys that trim to it, and the empty text never. */
  lemma {:induction false} TrimmedAllCounts(keys: set<string>, x: string)
    ensures TrimmedAll(keys)[x] == if x == "" then 0 else |TrimmingTo(keys, x)|
    decreases |keys|
  {
    if keys == {} {
      assert TrimmingTo(keys, x) == {};
    } else {
      var k :| k in keys;
      TrimmedAllTakes(keys, k);
      TrimmedAllCounts(keys - {k}, x);
      OneKeyMore(keys, k, x);
    }
  }

  /** The loop over the keys in any order, then the sort. */
  method SortedTrimmedKeys(keys: set<string>) returns (r: seq<string>)
    ensures r == SortedOf(TrimmedAll(keys))
  {
    r := [];
    var rest := keys;
    while rest != {}
      invariant rest <= keys && TrimmedAll(keys) == multiset(r) + TrimmedAll(rest)
      decreases rest
    {
      var k :| k in rest;
      TrimmedAllTakes(rest, k);
      Regroup(TrimmedAll(keys), multiset(r), TrimmedAll(rest - {k}), Trimmed(k));
      var s := Names.TrimSpace(k);
      if s != "" {
        assert multiset(r + [s]) == multiset(r) + Trimmed(k);
        r := r + [s];
      } else {
        assert multiset(r) + Trimmed(k) == multiset(r);
      }
      rest := rest - {k};
    }
    assert multiset(r) + TrimmedAll(rest) == multiset(r);
    r := SortStrings(r);
  }

  /** The trimmed, non-empty names of the extra clients; a nil client has none. */
  function NamesOf(clients: seq<Option<string>>): seq<string> {
    if clients == [] then [] else NamesOf(clients[..|clients| - 1]) + NameOf(clients[|clients| - 1])
  }

  function NameOf(client: Option<string>): seq<string> {
    if client.None? || Names.TrimSpace(client.value) == "" then [] else [Names.TrimSpace(client.value)]
  }

  /** A client that has a name. */
  predicate HasName(client: Option<string>) {
    client.Some? && Names.TrimSpace(client.value) != ""
  }

  lemma {:induction false} NamesAt(clients: seq<Option<string>>, k: nat)
    ensures |NamesOf(clients)| == |Where(clients, HasName)|
    ensures k < |NamesOf(clients)| ==> NamesOf(clients)[k] == Names.TrimSpace(clients[Where(clients, HasName)[k]].value)
  {
    if clients != [] {
      NamesAt(clients[..|clients| - 1], k);
    }
  }

  /** One name for each client that is not nil and whose name is not blank: those at the positions `at`, in order. */
  lemma NamesAreClients(clients: seq<Option<string>>) returns (at: seq<nat>)
    ensures |at| == |NamesOf(clients)| && (forall j, k :: 0 <= j < k < |at| ==> at[j] < at[k])
    ensures forall k :: 0 <= k < |at| ==>
      at[k] < |clients| && clients[at[k]].Some? && NamesOf(clients)[k] == Names.TrimSpace(clients[at[k]].value)
    ensures forall i: nat :: i in at <==> i < |clients| && clients[i].Some? && Names.TrimSpace(clients[i].value) != ""
  {
    at := Where(clients, HasName);
    NamesAt(clients, 0);
    forall k | 0 <= k < |at| ensures NamesOf(clients)[k] == Names.TrimSpace(clients[at[k]].value) {
      NamesAt(clients, k);
    }
    forall i: nat ensures i in at <==> i < |clients| && HasName(clients[i]) {
      WhereKept(clients, HasName, i);
    }
  }

  method ExtraClientNames(clients: seq<Option<string>>) returns (out: seq<string>)
    ensures out == SortedOf(multiset(NamesOf(clients)))
  {
    out := [];
    for i := 0 to |clients|
      invariant out == NamesOf(clients[..i])
    {
      assert clients[..i + 1][..i] == clients[..i];
      if clients[i].None? {
        continue;
      }
      var n := Names.TrimSpace(clients[i].value);
      if n != "" {
        out := out + [n];
      }
    }
    assert clients[..|clients|] == clients;
    out := SortStrings(out);
  }
}
