/** The tool filter of an MCP server and the skill filter of an A2A server. */
module Filters {
  import opened Selections
  import Names

  datatype Filter = Filter(allow: seq<string>, block: seq<string>)

  /** A discovered tool or skill: the id the filter looks at, and the rest of its description. */
  datatype Spec = Spec(id: string, about: string)

  /** How ids are compared: exactly for tools, trimmed for skills. */
  type Reading = string -> string

  function Exact(s: string): (r: string)
    ensures r == s
  {
    s
  }

  predicate Mentions(ids: seq<string>, id: string, read: Reading) {
    exists i :: 0 <= i < |ids| && read(ids[i]) == read(id)
  }

  /** An allow list wins; without one, a block list; without either, everything passes. */
  predicate Passes(f: Filter, id: string, read: Reading) {
    if f.allow != [] then Mentions(f.allow, id, read)
    else f.block == [] || !Mentions(f.block, id, read)
  }

  function Passing(f: Filter, specs: seq<Spec>, read: Reading): seq<Spec> {
    if specs == [] then []
    else
      var last := specs[|specs| - 1];
      Passing(f, specs[..|specs| - 1], read) + if Passes(f, last.id, read) then [last] else []
  }

  lemma {:induction false} AllPassWithoutLists(f: Filter, specs: seq<Spec>, read: Reading)
    requires f.allow == [] && f.block == []
    ensures Passing(f, specs, read) == specs
  {
    if specs != [] {
      AllPassWithoutLists(f, specs[..|specs| - 1], read);
    }
  }

  /** Order and repetition in the lists do not matter. */
  lemma {:induction false} SameListsSamePassing(f: Filter, g: Filter, specs: seq<Spec>, read: Reading)
    requires multiset(f.allow) == multiset(g.allow) && multiset(f.block) == multiset(g.block)
    ensures Passing(f, specs, read) == Passing(g, specs, read)
  {
    if specs != [] {
      var id := specs[|specs| - 1].id;
      SameListsSameMentions(f.allow, g.allow, id, read);
      SameListsSameMentions(f.block, g.block, id, read);
      assert |multiset(f.allow)| == |multiset(g.allow)| && |multiset(f.block)| == |multiset(g.block)|;
      SameListsSamePassing(f, g, specs[..|specs| - 1], read);
    }
  }

  lemma SameListsSameMentions(a: seq<string>, b: seq<string>, id: string, read: Reading)
    requires multiset(a) == multiset(b)
    ensures Mentions(a, id, read) <==> Mentions(b, id, read)
  {
    if i :| 0 <= i < |a| && read(a[i]) == read(id) {
      assert a[i] in multiset(b);
    }
    if j :| 0 <= j < |b| && read(b[j]) == read(id) {
      assert b[j] in multiset(a);
    }
  }

  /** What passes, said outright: with an allow list, an allowed id must read like the spec's; without one, no blocked id may. */
  lemma PassesMeans(f: Filter, id: string, read: Reading)
    ensures Passes(f, id, read) <==>
      if f.allow != [] then exists i :: 0 <= i < |f.allow| && read(f.allow[i]) == read(id)
      else forall i :: 0 <= i < |f.block| ==> read(f.block[i]) != read(id)
  {
  }

  /** The specs that pass, each as often as it is there and in order: those at the positions `at` and at no others. */
  lemma {:induction false} PassingSelects(f: Filter, specs: seq<Spec>, read: Reading) returns (at: seq<nat>)
    ensures Selects(specs, at, Passing(f, specs, read))
    ensures forall i: nat :: i in at <==> i < |specs| && Passes(f, specs[i].id, read)
  {
    if specs == [] {
      at := [];
    } else {
      var n := |specs| - 1;
      var front := PassingSelects(f, specs[..n], read);
      assert specs == specs[..n] + [specs[n]];
      SelectsSnoc(specs[..n], front, Passing(f, specs[..n], read), specs[n]);
      at := if Passes(f, specs[n].id, read) then front + [n] else front;
    }
  }

  method ReadAll(ids: seq<string>, read: Reading) returns (out: set<string>)
    ensures forall id :: read(id) in out <==> Mentions(ids, id, read)
  {
    out := {};
    for i := 0 to |ids|
      invariant forall x :: x in out <==> exists j :: 0 <= j < i && read(ids[j]) == x
    {
      out := out + {read(ids[i])};
    }
  }

  /** Keeps the specs whose id is in `ids`, or those whose id is not. */
  method Select(specs: seq<Spec>, ids: seq<string>, keep: bool, ghost f: Filter, read: Reading) returns (out: seq<Spec>)
    requires forall id :: Passes(f, id, read) <==> Mentions(ids, id, read) == keep
    ensures out == Passing(f, specs, read)
  {
    var listed := ReadAll(ids, read);
    out := [];
    for i := 0 to |specs|
      invariant out == Passing(f, specs[..i], read)
    {
      assert specs[..i + 1][..i] == specs[..i];
      assert Passes(f, specs[i].id, read) <==> Mentions(ids, specs[i].id, read) == keep;
      if (read(specs[i].id) in listed) == keep {
        out := out + [specs[i]];
      }
    }
    assert specs[..|specs|] == specs;
  }

  /**
    `MCPToolFilter.Apply` with `Exact`, `A2ASkillFilter.Apply` with trimming. The answer is the given
    specs at some positions, in order: where an allowed id reads like the spec's, or, without an
    allow list, where no blocked id does.
  */
  method Apply(f: Filter, specs: seq<Spec>, read: Reading) returns (out: seq<Spec>, ghost at: seq<nat>)
    ensures out == Passing(f, specs, read)
    ensures Selects(specs, at, out)
    ensures f.allow != [] ==>
      forall i: nat :: i in at <==> i < |specs| && exists j :: 0 <= j < |f.allow| && read(f.allow[j]) == read(specs[i].id)
    ensures f.allow == [] ==>
      forall i: nat :: i in at <==> i < |specs| && forall j :: 0 <= j < |f.block| ==> read(f.block[j]) != read(specs[i].id)
  {
    at := PassingSelects(f, specs, read);
    if |f.allow| > 0 {
      out := Select(specs, f.allow, true, f, read);
      return;
    }
    if |f.block| > 0 {
      out := Select(specs, f.block, false, f, read);
      return;
    }
    AllPassWithoutLists(f, specs, read);
    out := specs;
  }

  /** So a spec is kept exactly when it was given and passes, and as often as it was given. */
  lemma PassingKeepsCounts(f: Filter, specs: seq<Spec>, read: Reading, s: Spec)
    ensures s in Passing(f, specs, read) <==>
      s in specs && if f.allow != [] then exists j :: 0 <= j < |f.allow| && read(f.allow[j]) == read(s.id)
                    else forall j :: 0 <= j < |f.block| ==> read(f.block[j]) != read(s.id)
    ensures s in Passing(f, specs, read) ==> multiset(Passing(f, specs, read))[s] == multiset(specs)[s]
  {
    PassesMeans(f, s.id, read);
    PassingCount(f, specs, read, s);
    assert s in specs <==> s in multiset(specs);
    assert s in Passing(f, specs, read) <==> s in multiset(Passing(f, specs, read));
  }

  lemma {:induction false} PassingCount(f: Filter, specs: seq<Spec>, read: Reading, s: Spec)
    ensures multiset(Passing(f, specs, read))[s] == if Passes(f, s.id, read) then multiset(specs)[s] else 0
  {
    if specs != [] {
      var n := |specs| - 1;
      PassingCount(f, specs[..n], read, s);
      assert specs == specs[..n] + [specs[n]];
    }
  }
}
