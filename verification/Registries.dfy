/**
  The tool and sub-agent registries: a map and an order slice over a real backing array, which
  together refine an insertion-ordered map. The two source types differ only in their entries.
*/
module Registries {
  import opened Wrappers
  import opened GoSlices
  import Names

  datatype RegistryError = NilEntry | InvalidName | Duplicate | NotFound

  // ----- the insertion-ordered map

  function NamesIn<V>(entries: seq<(string, V)>): (r: seq<string>)
    ensures |r| == |entries| && forall i :: 0 <= i < |r| ==> r[i] == entries[i].0
  {
    if entries == [] then [] else NamesIn(entries[..|entries| - 1]) + [entries[|entries| - 1].0]
  }

  function ValuesIn<V>(entries: seq<(string, V)>): (r: seq<V>)
    ensures |r| == |entries| && forall i :: 0 <= i < |r| ==> r[i] == entries[i].1
  {
    if entries == [] then [] else ValuesIn(entries[..|entries| - 1]) + [entries[|entries| - 1].1]
  }

  ghost predicate NoRepeats(names: seq<string>) {
    forall i, j :: 0 <= i < j < |names| ==> names[i] != names[j]
  }

  /** Where a name is, or the length. */
  function IndexOf(names: seq<string>, name: string): (i: nat)
    ensures i <= |names| && (i < |names| ==> names[i] == name) && (i == |names| <==> name !in names)
    ensures forall j :: 0 <= j < i ==> names[j] != name
  {
    if names == [] || names[0] == name then 0 else 1 + IndexOf(names[1..], name)
  }

  /** `tools` holds exactly the entries. */
  ghost predicate SameEntries<V>(entries: seq<(string, V)>, names: seq<string>, tools: map<string, V>) {
    && NamesIn(entries) == names && NoRepeats(names)
    && (forall n :: n in tools <==> n in names)
    && forall i :: 0 <= i < |entries| ==> entries[i].0 in tools && tools[entries[i].0] == entries[i].1
  }

  lemma EntriesAdd<V>(entries: seq<(string, V)>, names: seq<string>, tools: map<string, V>, name: string, v: V)
    requires SameEntries(entries, names, tools) && name !in tools
    ensures SameEntries(entries + [(name, v)], names + [name], tools[name := v])
  {
    assert (entries + [(name, v)])[..|entries|] == entries;
    forall n ensures n in names + [name] <==> n in names || n == name {
    }
  }

  lemma WithoutAt<T>(q: seq<T>, i: nat, k: nat)
    requires i < |q| && k < |q| - 1
    ensures Without(q, i)[k] == q[if k < i then k else k + 1]
  {
  }

  lemma NamesWithout<V>(entries: seq<(string, V)>, i: nat)
    requires i < |entries|
    ensures NamesIn(Without(entries, i)) == Without(NamesIn(entries), i)
  {
    var a, b := NamesIn(Without(entries, i)), Without(NamesIn(entries), i);
    assert |a| == |b|;
    forall k | 0 <= k < |a| ensures a[k] == b[k] {
      WithoutAt(entries, i, k);
      WithoutAt(NamesIn(entries), i, k);
    }
    assert a == b;
  }

  lemma NoRepeatsWithout(names: seq<string>, i: nat)
    requires NoRepeats(names) && i < |names|
    ensures NoRepeats(Without(names, i))
  {
    forall k, m | 0 <= k < m < |names| - 1 ensures Without(names, i)[k] != Without(names, i)[m] {
      WithoutAt(names, i, k);
      WithoutAt(names, i, m);
    }
  }

  lemma InWithout(names: seq<string>, i: nat, n: string)
    requires NoRepeats(names) && i < |names|
    ensures n in Without(names, i) <==> n in names && n != names[i]
  {
    if n in Without(names, i) {
      var k :| 0 <= k < |names| - 1 && Without(names, i)[k] == n;
      WithoutAt(names, i, k);
    }
    if n in names && n != names[i] {
      var k :| 0 <= k < |names| && names[k] == n;
      WithoutAt(names, i, if k < i then k else k - 1);
    }
  }

  lemma EntriesRemove<V>(entries: seq<(string, V)>, names: seq<string>, tools: map<string, V>, i: nat)
    requires SameEntries(entries, names, tools) && i < |names|
    ensures SameEntries(Without(entries, i), Without(names, i), tools - {names[i]})
  {
    NamesWithout(entries, i);
    NoRepeatsWithout(names, i);
    forall n ensures n in Without(names, i) <==> n in tools - {names[i]} {
      InWithout(names, i, n);
    }
    forall k | 0 <= k < |entries| - 1 ensures
      var e := Without(entries, i)[k]; e.0 in tools - {names[i]} && (tools - {names[i]})[e.0] == e.1
    {
      WithoutAt(entries, i, k);
    }
  }

  /** What the search loop finds for a listed name is its index, and dropping it keeps map and order in step. */
  lemma EntriesDrop<V>(entries: seq<(string, V)>, names: seq<string>, tools: map<string, V>, name: string, at: nat)
    requires SameEntries(entries, names, tools) && name in tools && at <= |names|
    requires (forall j :: 0 <= j < at ==> names[j] != name) && (at < |names| ==> names[at] == name)
    ensures at < |names| && at == IndexOf(NamesIn(entries), name)
    ensures SameEntries(Without(entries, at), Without(names, at), tools - {name})
  {
    assert name in names;
    FirstIsIndex(names, name, at);
    EntriesRemove(entries, names, tools, at);
  }

  lemma {:induction false} FirstIsIndex(names: seq<string>, name: string, at: nat)
    requires at < |names| && names[at] == name && forall j :: 0 <= j < at ==> names[j] != name
    ensures IndexOf(names, name) == at
  {
    if at > 0 {
      FirstIsIndex(names[1..], name, at - 1);
    }
  }

  // ----- the registry

  /** `append(order, name)`, in place or to a new array. */
  method AppendName(order: Slice<string>, name: string, growth: nat) returns (r: Slice<string>)
    requires Ok(order)
    modifies Backing(order)
    ensures Ok(r) && View(r) == old(View(order)) + [name] && fresh(Backing(r) - Backing(order))
  {
    r := Append(order, [name], growth);
  }

  class Registry<V(0)> {
    var tools: map<string, V>
    var order: Slice<string>
    ghost var entries: seq<(string, V)>

    ghost predicate Valid()
      reads this, Backing(order)
    {
      Ok(order) && SameEntries(entries, View(order), tools)
    }

    constructor ()
      ensures Valid() && entries == [] && Backing(order) == {}
    {
      tools := map[];
      order := Slice.Nil;
      entries := [];
    }

    /** `growth` is the spare capacity the runtime adds when the order slice moves to a new array. */
    method Register(entry: Option<(string, V)>, growth: nat) returns (err: Option<RegistryError>)
      requires Valid()
      modifies this, Backing(order)
      ensures Valid() && fresh(Backing(order) - old(Backing(order)))
      ensures err == RegisterError(entry, old(NamesIn(entries)))
      ensures entry.None? ==> err == Some(NilEntry)
      ensures entry.Some? && Names.TrimSpace(entry.value.0) == "" ==> err == Some(InvalidName)
      ensures entry.Some? && Names.TrimSpace(entry.value.0) != "" ==>
        err == if Names.TrimSpace(entry.value.0) in old(NamesIn(entries)) then Some(Duplicate) else None
      ensures entries == if err.Some? then old(entries) else old(entries) + [(Names.TrimSpace(entry.value.0), entry.value.1)]
    {
      if entry.None? {
        return Some(NilEntry);
      }
      var name := Names.TrimSpace(entry.value.0);
      if name == "" {
        return Some(InvalidName);
      }
      if name in tools {
        return Some(Duplicate);
      }
      Push(name, entry.value.1, growth);
      return None;
    }

    method Push(name: string, v: V, growth: nat)
      requires Valid() && name !in tools
      modifies this, Backing(order)
      ensures Valid() && fresh(Backing(order) - old(Backing(order)))
      ensures entries == old(entries) + [(name, v)]
    {
      var before := tools;
      ghost var names, was := View(order), entries;
      EntriesAdd(was, names, before, name, v);
      var longer := AppendName(order, name, growth);
      Become(longer, before[name := v], names + [name], was + [(name, v)]);
    }

    method Unregister(name: string) returns (err: Option<RegistryError>)
      requires Valid()
      modifies this, Backing(order)
      ensures Valid() && Backing(order) <= old(Backing(order))
      ensures err == FindError(name, old(NamesIn(entries)))
      ensures Names.TrimSpace(name) == "" ==> err == Some(InvalidName)
      ensures Names.TrimSpace(name) != "" ==> err == if Names.TrimSpace(name) in old(NamesIn(entries)) then None else Some(NotFound)
      ensures entries == if err.Some? then old(entries) else Without(old(entries), IndexOf(old(NamesIn(entries)), Names.TrimSpace(name)))
    {
      var n := Names.TrimSpace(name);
      if n == "" {
        return Some(InvalidName);
      }
      if n !in tools {
        return Some(NotFound);
      }
      Drop(n);
      return None;
    }

    method Drop(name: string)
      requires Valid() && name in tools
      modifies this, Backing(order)
      ensures Valid() && Backing(order) == old(Backing(order))
      ensures entries == Without(old(entries), IndexOf(old(NamesIn(entries)), name))
    {
      var before := tools;
      ghost var names, was := View(order), entries;
      var shorter;
      ghost var at;
      shorter, at := RemoveFromOrder(order, name);
      EntriesDrop(was, names, before, name, at);
      Become(shorter, before - {name}, Without(names, at), Without(was, at));
    }

    /** Takes on a new order slice and map that show the given entries. */
    method Become(order: Slice<string>, tools: map<string, V>, ghost names: seq<string>, ghost entries: seq<(string, V)>)
      requires Ok(order) && View(order) == names && SameEntries(entries, names, tools)
      modifies this
      ensures Valid() && this.order == order && this.entries == entries
    {
      this.order, this.tools, this.entries := order, tools, entries;
    }

    method Get(name: string) returns (r: Result<V, RegistryError>)
      requires Valid()
      ensures match FindError(name, NamesIn(entries))
        case Some(e) => r == Failure(e)
        case None => r == Success(entries[IndexOf(NamesIn(entries), Names.TrimSpace(name))].1)
      ensures Names.TrimSpace(name) == "" ==> r == Failure(InvalidName)
      ensures Names.TrimSpace(name) != "" && Names.TrimSpace(name) !in NamesIn(entries) ==> r == Failure(NotFound)
      ensures Names.TrimSpace(name) != "" && Names.TrimSpace(name) in NamesIn(entries) ==> r.Success? && (Names.TrimSpace(name), r.value) in entries
    {
      var n := Names.TrimSpace(name);
      if n == "" {
        return Failure(InvalidName);
      }
      if n !in tools {
        return Failure(NotFound);
      }
      return Success(tools[n]);
    }

    /** A new slice of the entries in order; later changes to the registry cannot reach its array. */
    method List() returns (r: Slice<V>)
      requires Valid()
      ensures Ok(r) && r.Slice? && fresh(r.arr) && View(r) == ValuesIn(entries)
    {
      r := ListOf(View(order), tools, entries);
    }
  }

  method ListOf<V(0)>(names: seq<string>, tools: map<string, V>, ghost entries: seq<(string, V)>) returns (r: Slice<V>)
    requires SameEntries(entries, names, tools)
    ensures Ok(r) && r.Slice? && fresh(r.arr) && View(r) == ValuesIn(entries)
  {
    var arr := new V[|names|];
    var at := 0;
    for i := 0 to |names|
      invariant at == i
      invariant forall j :: 0 <= j < i ==> arr[j] == entries[j].1
    {
      assert entries[i].0 == names[i];
      if names[i] in tools {
        arr[at] := tools[names[i]];
        at := at + 1;
      }
    }
    r := Slice(arr, 0, at);
    assert View(r) == ValuesIn(entries);
  }

  function RegisterError<V>(entry: Option<(string, V)>, names: seq<string>): Option<RegistryError> {
    if entry.None? then Some(NilEntry)
    else if Names.TrimSpace(entry.value.0) == "" then Some(InvalidName)
    else if Names.TrimSpace(entry.value.0) in names then Some(Duplicate)
    else None
  }

  function FindError(name: string, names: seq<string>): Option<RegistryError> {
    if Names.TrimSpace(name) == "" then Some(InvalidName)
    else if Names.TrimSpace(name) !in names then Some(NotFound)
    else None
  }

  /** Removes the first occurrence of `name` in place; `at` is where it was, or the length. */
  method RemoveFromOrder(order: Slice<string>, name: string) returns (r: Slice<string>, ghost at: nat)
    requires Ok(order)
    modifies Backing(order)
    ensures Ok(r) && Backing(r) == Backing(order) && at <= |old(View(order))|
    ensures forall j :: 0 <= j < at ==> old(View(order))[j] != name
    ensures at < |old(View(order))| ==> old(View(order))[at] == name && View(r) == Without(old(View(order)), at)
    ensures at == |old(View(order))| ==> View(r) == old(View(order))
  {
    if order.Nil? {
      return order, 0;
    }
    ghost var names := View(order);
    for i := 0 to order.len
      invariant View(order) == names && forall j :: 0 <= j < i ==> names[j] != name
    {
      assert names[i] == order.arr[order.off + i];
      if order.arr[order.off + i] == name {
        r := RemoveAt(order, i);
        at := i;
        return;
      }
    }
    return order, order.len;
  }

  datatype Change<V> = Add(entry: Option<(string, V)>) | Remove(name: string)

  /** What a change makes of the entries: refused changes leave them alone. */
  function AfterOne<V>(entries: seq<(string, V)>, change: Change<V>): seq<(string, V)> {
    match change
    case Add(entry) =>
      if RegisterError(entry, NamesIn(entries)).Some? then entries else entries + [(Names.TrimSpace(entry.value.0), entry.value.1)]
    case Remove(name) =>
      if FindError(name, NamesIn(entries)).Some? then entries else Without(entries, IndexOf(NamesIn(entries), Names.TrimSpace(name)))
  }

  function AfterAll<V>(entries: seq<(string, V)>, changes: seq<Change<V>>): seq<(string, V)>
    decreases |changes|
  {
    if changes == [] then entries else AfterAll(AfterOne(entries, changes[0]), changes[1..])
  }

  /** The registry's array is one it had or a new one. */
  twostate predicate OwnOrFresh<V(0)>(reg: Registry<V>, had: set<object>)
    reads reg
  {
    reg.order.Slice? ==> reg.order.arr in had || fresh(reg.order.arr)
  }

  method ApplyOne<V(0)>(reg: Registry<V>, change: Change<V>, growth: nat)
    requires reg.Valid()
    modifies reg, Backing(reg.order)
    ensures reg.Valid() && OwnOrFresh(reg, old(Backing(reg.order)))
    ensures reg.entries == AfterOne(old(reg.entries), change)
  {
    match change
    case Add(entry) => var _ := reg.Register(entry, growth);
    case Remove(name) => var _ := reg.Unregister(name);
  }

  /** Any later registrations and removals. */
  method Apply<V(0)>(reg: Registry<V>, changes: seq<Change<V>>, growth: nat -> nat)
    requires reg.Valid()
    modifies reg, Backing(reg.order)
    ensures reg.Valid() && OwnOrFresh(reg, old(Backing(reg.order)))
    ensures reg.entries == AfterAll(old(reg.entries), changes)
  {
    if changes != [] {
      ApplyOne(reg, changes[0], growth(|changes|));
      Apply(reg, changes[1..], growth);
    }
  }

  method ApplyBeside<V(0)>(reg: Registry<V>, changes: seq<Change<V>>, growth: nat -> nat, list: Slice<V>, ghost shown: seq<V>)
    requires reg.Valid() && Ok(list) && Backing(list) !! Backing(reg.order) && View(list) == shown
    modifies reg, Backing(reg.order)
    ensures View(list) == shown
    ensures reg.Valid() && reg.entries == AfterAll(old(reg.entries), changes)
  {
    Apply(reg, changes, growth);
  }

  /** A list once taken shows the registry as it was, whatever is registered and removed afterwards. */
  method ListThenApply<V(0)>(reg: Registry<V>, changes: seq<Change<V>>, growth: nat -> nat) returns (list: Slice<V>)
    requires reg.Valid()
    modifies reg, Backing(reg.order)
    ensures Ok(list) && View(list) == old(ValuesIn(reg.entries))
    ensures reg.Valid() && reg.entries == AfterAll(old(reg.entries), changes)
  {
    list := reg.List();
    ApplyBeside(reg, changes, growth, list, ValuesIn(reg.entries));
  }
}
