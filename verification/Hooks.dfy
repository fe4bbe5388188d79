/**
  The hook runners: each threads a call through the hooks of all groups in order, stopping at the
  first error. A hook also changes the world it runs in. The world holds whatever a hook can reach,
  map objects it was handed included, so which hooks ran and what they wrote is part of the outcome.
*/
module Hooks {
  import opened Wrappers

  /** A hook sees the world, the name of its group and its input. */
  type Hook<!W, !I, !O, !E> = (W, string, I) -> (W, Result<O, E>)

  /** The hooks of one group at one hook point; a nil hook is None. */
  datatype Group<!W, !I, !O, !E> = Group(name: string, hooks: seq<Option<Hook<W, I, O, E>>>)

  /** What a runner shows its hooks of the current state, and what it takes from their output; copying a map makes a new object in the world. */
  datatype Point<!W, !S, !I, !O> = Point(show: S -> I, take: (W, S, O) -> (W, S))

  /** Where a run stopped: at the end, or at the first error. */
  datatype Outcome<W, S, E> = Outcome(world: W, state: S, err: Option<E>)

  // ----- the specification: a fold that stops at an error

  datatype Call<!W, !I, !O, !E> = Call(name: string, hook: Hook<W, I, O, E>)

  function Calls<W, I, O, E>(name: string, hooks: seq<Option<Hook<W, I, O, E>>>): seq<Call<W, I, O, E>> {
    if hooks == [] then []
    else Calls(name, hooks[..|hooks| - 1]) + match hooks[|hooks| - 1] case Some(h) => [Call(name, h)] case None => []
  }

  /** Every non-nil hook of every group, with its group's name, in registration order. */
  function Flat<W, I, O, E>(groups: seq<Group<W, I, O, E>>): seq<Call<W, I, O, E>> {
    if groups == [] then []
    else
      var last := groups[|groups| - 1];
      Flat(groups[..|groups| - 1]) + Calls(last.name, last.hooks)
  }

  function One<W, S, I, O, E>(p: Point<W, S, I, O>, c: Call<W, I, O, E>, w: W, s: S): Outcome<W, S, E> {
    var (w1, r) := c.hook(w, c.name, p.show(s));
    match r
    case Success(out) => (var (w2, s2) := p.take(w1, s, out); Outcome(w2, s2, None))
    case Failure(e) => Outcome(w1, s, Some(e))
  }

  function Then<W, S, I, O, E>(p: Point<W, S, I, O>, so: Outcome<W, S, E>, calls: seq<Call<W, I, O, E>>): Outcome<W, S, E> {
    if calls == [] then so
    else
      var before := Then(p, so, calls[..|calls| - 1]);
      if before.err.Some? then before else One(p, calls[|calls| - 1], before.world, before.state)
  }

  function Fold<W, S, I, O, E>(p: Point<W, S, I, O>, calls: seq<Call<W, I, O, E>>, w: W, s: S): Outcome<W, S, E> {
    Then(p, Outcome(w, s, None), calls)
  }

  lemma {:induction false} ThenConcat<W, S, I, O, E>(p: Point<W, S, I, O>, so: Outcome<W, S, E>, a: seq<Call<W, I, O, E>>, b: seq<Call<W, I, O, E>>)
    ensures Then(p, so, a + b) == Then(p, Then(p, so, a), b)
  {
    if b == [] {
      assert a + b == a;
    } else {
      assert (a + b)[..|a + b| - 1] == a + b[..|b| - 1];
      ThenConcat(p, so, a, b[..|b| - 1]);
    }
  }

  lemma {:induction false} ErrorIsFinal<W, S, I, O, E>(p: Point<W, S, I, O>, so: Outcome<W, S, E>, calls: seq<Call<W, I, O, E>>)
    requires so.err.Some?
    ensures Then(p, so, calls) == so
  {
    if calls != [] {
      ErrorIsFinal(p, so, calls[..|calls| - 1]);
    }
  }

  lemma Assoc<T>(a: seq<T>, b: seq<T>, c: seq<T>)
    ensures (a + b) + c == a + (b + c)
  {
  }

  lemma {:induction false} FlatConcat<W, I, O, E>(a: seq<Group<W, I, O, E>>, b: seq<Group<W, I, O, E>>)
    ensures Flat(a + b) == Flat(a) + Flat(b)
  {
    if b == [] {
      assert a + b == a;
    } else {
      var front, last := b[..|b| - 1], b[|b| - 1];
      assert (a + b)[..|a + b| - 1] == a + front && (a + b)[|a + b| - 1] == last;
      FlatConcat(a, front);
      Assoc(Flat(a), Flat(front), Calls(last.name, last.hooks));
    }
  }

  lemma {:induction false} CallsConcat<W, I, O, E>(name: string, a: seq<Option<Hook<W, I, O, E>>>, b: seq<Option<Hook<W, I, O, E>>>)
    ensures Calls(name, a + b) == Calls(name, a) + Calls(name, b)
  {
    if b == [] {
      assert a + b == a;
    } else {
      assert (a + b)[..|a + b| - 1] == a + b[..|b| - 1];
      CallsConcat(name, a, b[..|b| - 1]);
    }
  }

  /** Hooks run in registration order, under their group's name, and nil ones are left out: this and composition fix the order of every list of groups. */
  lemma GroupOrder<W, I, O, E>(name: string, a: seq<Option<Hook<W, I, O, E>>>, b: seq<Option<Hook<W, I, O, E>>>, hook: Hook<W, I, O, E>)
    ensures Flat([Group(name, a + b)]) == Flat([Group(name, a)]) + Flat([Group(name, b)])
    ensures Flat<W, I, O, E>([Group(name, [Some(hook)])]) == [Call(name, hook)]
    ensures Flat<W, I, O, E>([Group(name, [None])]) == []
  {
    CallsConcat(name, a, b);
    OneGroup(name, a + b);
    OneGroup(name, a);
    OneGroup(name, b);
    OneGroup<W, I, O, E>(name, [Some(hook)]);
    OneGroup<W, I, O, E>(name, [None]);
    var one, none: seq<Option<Hook<W, I, O, E>>> := [Some(hook)], [None];
    assert one[..0] == [] && none[..0] == [];
    assert Calls(name, one) == [] + [Call(name, hook)];
  }

  lemma OneGroup<W, I, O, E>(name: string, hooks: seq<Option<Hook<W, I, O, E>>>)
    ensures Flat([Group(name, hooks)]) == Calls(name, hooks)
  {
    assert [Group(name, hooks)][..0] == [];
    assert Flat([Group(name, hooks)]) == [] + Calls(name, hooks);
  }

  /** After a hook that succeeded the runner goes on with what it takes from the output; after one that failed the run is over with that error. */
  lemma HookIsHeard<W, S, I, O, E>(p: Point<W, S, I, O>, calls: seq<Call<W, I, O, E>>, w: W, s: S, k: nat)
    requires k < |calls| && Fold(p, calls[..k], w, s).err.None?
    ensures var before := Fold(p, calls[..k], w, s);
      var (w1, r) := calls[k].hook(before.world, calls[k].name, p.show(before.state));
      Fold(p, calls[..k + 1], w, s) == match r
        case Success(out) => (var (w2, s2) := p.take(w1, before.state, out); Outcome(w2, s2, None))
        case Failure(e) => Outcome(w1, before.state, Some(e))
  {
    assert calls[..k + 1] == calls[..k] + [calls[k]];
    FoldSnoc(p, calls[..k], calls[k], w, s);
  }

  /**
    Runners compose: a list of groups followed by another runs the second where the first ended,
    or not at all when the first ended in an error, whatever the world then is.
  */
  lemma RunsCompose<W, S, I, O, E>(p: Point<W, S, I, O>, a: seq<Group<W, I, O, E>>, b: seq<Group<W, I, O, E>>, w: W, s: S)
    ensures var first := Fold(p, Flat(a), w, s);
      Fold(p, Flat(a + b), w, s) == if first.err.Some? then first else Fold(p, Flat(b), first.world, first.state)
  {
    FlatConcat(a, b);
    ThenConcat(p, Outcome(w, s, None), Flat(a), Flat(b));
    var first := Fold(p, Flat(a), w, s);
    if first.err.Some? {
      ErrorIsFinal(p, first, Flat(b));
    }
  }

  /** What holds of world and state at the start, and what every single call keeps, holds throughout. */
  lemma {:induction false} FoldKeeps<W(!new), S(!new), I, O, E>(p: Point<W, S, I, O>, calls: seq<Call<W, I, O, E>>, w: W, s: S, keeps: (W, S) -> bool)
    requires keeps(w, s)
    requires forall i: nat, u: W, t: S :: i < |calls| && keeps(u, t) ==> keeps(One(p, calls[i], u, t).world, One(p, calls[i], u, t).state)
    ensures keeps(Fold(p, calls, w, s).world, Fold(p, calls, w, s).state)
  {
    if calls != [] {
      var k := |calls| - 1;
      var front := calls[..k];
      forall i: nat, u: W, t: S | i < |front| && keeps(u, t) ensures keeps(One(p, front[i], u, t).world, One(p, front[i], u, t).state) {
        assert front[i] == calls[i];
      }
      FoldKeeps(p, front, w, s, keeps);
      var before := Fold(p, front, w, s);
      assert keeps(One(p, calls[k], before.world, before.state).world, One(p, calls[k], before.world, before.state).state);
    }
  }

  /** A part of the state that no output is taken into stays as it was, whatever the hooks do to the world. */
  lemma StateKeeps<W(!new), S(!new), I, O(!new), E>(p: Point<W, S, I, O>, calls: seq<Call<W, I, O, E>>, w: W, s: S, keeps: S -> bool)
    requires keeps(s) && forall u: W, t: S, o: O :: keeps(t) ==> keeps(p.take(u, t, o).1)
    ensures keeps(Fold(p, calls, w, s).state)
  {
    forall i: nat, u: W, t: S | i < |calls| && keeps(t) ensures keeps(One(p, calls[i], u, t).state) {
      var (u1, r) := calls[i].hook(u, calls[i].name, p.show(t));
      assert r.Success? ==> keeps(p.take(u1, t, r.value).1);
    }
    FoldKeeps(p, calls, w, s, (u: W, t: S) => keeps(t));
  }

  // ----- merged groups

  ghost predicate IgnoresName<W(!new), I(!new), O, E>(h: Hook<W, I, O, E>) {
    forall w: W, m: string, n: string, i: I :: h(w, m, i) == h(w, n, i)
  }

  ghost predicate AllIgnoreName<W(!new), I(!new), O, E>(calls: seq<Call<W, I, O, E>>) {
    forall i :: 0 <= i < |calls| ==> IgnoresName(calls[i].hook)
  }

  ghost predicate SameHooks<W, I, O, E>(a: seq<Call<W, I, O, E>>, b: seq<Call<W, I, O, E>>) {
    |a| == |b| && forall i :: 0 <= i < |a| ==> a[i].hook == b[i].hook
  }

  lemma {:induction false} NamesDoNotMatter<W(!new), S, I(!new), O, E>(p: Point<W, S, I, O>, a: seq<Call<W, I, O, E>>, b: seq<Call<W, I, O, E>>, w: W, s: S)
    requires SameHooks(a, b) && AllIgnoreName(a)
    ensures Fold(p, a, w, s) == Fold(p, b, w, s)
  {
    if a != [] {
      var k := |a| - 1;
      NamesDoNotMatter(p, a[..k], b[..k], w, s);
      var before := Fold(p, a[..k], w, s);
      assert IgnoresName(a[k].hook);
      assert a[k].hook(before.world, a[k].name, p.show(before.state)) == a[k].hook(before.world, b[k].name, p.show(before.state));
    }
  }

  /** What `AgentHooks.Merge`, repeated over the groups, leaves at one hook point. */
  function Merged<W, I, O, E>(groups: seq<Group<W, I, O, E>>): seq<Option<Hook<W, I, O, E>>> {
    if groups == [] then [] else Merged(groups[..|groups| - 1]) + groups[|groups| - 1].hooks
  }

  lemma {:induction false} RenamedCalls<W, I, O, E>(m: string, n: string, hooks: seq<Option<Hook<W, I, O, E>>>)
    ensures SameHooks(Calls(m, hooks), Calls(n, hooks))
  {
    if hooks != [] {
      RenamedCalls(m, n, hooks[..|hooks| - 1]);
    }
  }

  lemma {:induction false} MergedCalls<W, I, O, E>(name: string, groups: seq<Group<W, I, O, E>>)
    ensures SameHooks(Flat(groups), Calls(name, Merged(groups)))
  {
    if groups != [] {
      var front, last := groups[..|groups| - 1], groups[|groups| - 1];
      MergedCalls(name, front);
      CallsConcat(name, Merged(front), last.hooks);
      RenamedCalls(last.name, name, last.hooks);
    }
  }

  /** One group built by merging runs like the separate groups, when the hooks do not look at the group name. */
  lemma MergedRunsAlike<W(!new), S, I(!new), O, E>(p: Point<W, S, I, O>, groups: seq<Group<W, I, O, E>>, name: string, w: W, s: S)
    requires AllIgnoreName(Flat(groups))
    ensures Fold(p, Flat([Group(name, Merged(groups))]), w, s) == Fold(p, Flat(groups), w, s)
  {
    var merged := Group(name, Merged(groups));
    assert [merged][..0] == [];
    assert Flat([merged]) == Calls(name, Merged(groups));
    MergedCalls(name, groups);
    NamesDoNotMatter(p, Flat(groups), Calls(name, Merged(groups)), w, s);
  }

  // ----- the runner

  lemma FoldSnoc<W, S, I, O, E>(p: Point<W, S, I, O>, calls: seq<Call<W, I, O, E>>, c: Call<W, I, O, E>, w: W, s: S)
    ensures Fold(p, calls + [c], w, s) == var before := Fold(p, calls, w, s); if before.err.Some? then before else One(p, c, before.world, before.state)
  {
    assert (calls + [c])[..|calls|] == calls;
  }

  /** The calls of the groups before number `i` and of the hooks of that group before number `j`. */
  function CallsUpTo<W, I, O, E>(groups: seq<Group<W, I, O, E>>, i: nat, j: nat): seq<Call<W, I, O, E>>
    requires i < |groups| && j <= |groups[i].hooks|
  {
    Flat(groups[..i]) + Calls(groups[i].name, groups[i].hooks[..j])
  }

  lemma NextCall<W, I, O, E>(groups: seq<Group<W, I, O, E>>, i: nat, j: nat)
    requires i < |groups| && j < |groups[i].hooks|
    ensures CallsUpTo(groups, i, j + 1) == CallsUpTo(groups, i, j) +
      match groups[i].hooks[j] case Some(h) => [Call(groups[i].name, h)] case None => []
  {
    assert groups[i].hooks[..j + 1][..j] == groups[i].hooks[..j];
  }

  lemma NextGroup<W, I, O, E>(groups: seq<Group<W, I, O, E>>, i: nat)
    requires i < |groups|
    ensures CallsUpTo(groups, i, 0) == Flat(groups[..i])
    ensures CallsUpTo(groups, i, |groups[i].hooks|) == Flat(groups[..i + 1])
  {
    assert groups[..i + 1][..i] == groups[..i];
    assert groups[i].hooks[..|groups[i].hooks|] == groups[i].hooks;
  }

  lemma FlatSnoc<W, I, O, E>(groups: seq<Group<W, I, O, E>>, i: nat)
    requires i < |groups|
    ensures Flat(groups[..i + 1]) == Flat(groups[..i]) + Calls(groups[i].name, groups[i].hooks)
  {
    assert groups[..i + 1][..i] == groups[..i];
  }

  lemma GroupsSplit<W, I, O, E>(groups: seq<Group<W, I, O, E>>, i: nat)
    requires i < |groups|
    ensures Flat(groups) == Flat(groups[..i]) + Calls(groups[i].name, groups[i].hooks) + Flat(groups[i + 1..])
  {
    var front, back := groups[..i + 1], groups[i + 1..];
    assert groups == front + back;
    FlatConcat(front, back);
    FlatSnoc(groups, i);
  }

  lemma HooksSplit<W, I, O, E>(name: string, hooks: seq<Option<Hook<W, I, O, E>>>, j: nat)
    requires j <= |hooks|
    ensures Calls(name, hooks) == Calls(name, hooks[..j]) + Calls(name, hooks[j..])
  {
    assert hooks == hooks[..j] + hooks[j..];
    CallsConcat(name, hooks[..j], hooks[j..]);
  }

  lemma Regroup<T>(a: seq<T>, b: seq<T>, c: seq<T>, d: seq<T>)
    ensures a + (b + c) + d == (a + b) + (c + d)
  {
  }

  lemma RestAreCalls<W, I, O, E>(groups: seq<Group<W, I, O, E>>, i: nat, j: nat) returns (rest: seq<Call<W, I, O, E>>)
    requires i < |groups| && j <= |groups[i].hooks|
    ensures Flat(groups) == CallsUpTo(groups, i, j) + rest
  {
    var g := groups[i];
    GroupsSplit(groups, i);
    HooksSplit(g.name, g.hooks, j);
    rest := Calls(g.name, g.hooks[j..]) + Flat(groups[i + 1..]);
    Regroup(Flat(groups[..i]), Calls(g.name, g.hooks[..j]), Calls(g.name, g.hooks[j..]), Flat(groups[i + 1..]));
  }

  /** An error part way is the outcome of the whole run. */
  lemma StopsHere<W, S, I, O, E>(p: Point<W, S, I, O>, groups: seq<Group<W, I, O, E>>, i: nat, j: nat, w: W, s: S)
    requires i < |groups| && j <= |groups[i].hooks| && Fold(p, CallsUpTo(groups, i, j), w, s).err.Some?
    ensures Fold(p, Flat(groups), w, s) == Fold(p, CallsUpTo(groups, i, j), w, s)
  {
    var rest := RestAreCalls(groups, i, j);
    var so := Outcome(w, s, None);
    ThenConcat(p, so, CallsUpTo(groups, i, j), rest);
    ErrorIsFinal(p, Then(p, so, CallsUpTo(groups, i, j)), rest);
  }

  /** The nested loops every runner is made of. */
  method Run<W, S, I, O, E>(p: Point<W, S, I, O>, groups: seq<Group<W, I, O, E>>, w: W, s: S) returns (r: Outcome<W, S, E>)
    ensures r == Fold(p, Flat(groups), w, s)
  {
    var world, current := w, s;
    for i := 0 to |groups|
      invariant Fold(p, Flat(groups[..i]), w, s) == Outcome(world, current, None)
    {
      var g := groups[i];
      NextGroup(groups, i);
      if |g.hooks| == 0 {
        continue;
      }
      for j := 0 to |g.hooks|
        invariant Fold(p, CallsUpTo(groups, i, j), w, s) == Outcome(world, current, None)
      {
        NextCall(groups, i, j);
        if g.hooks[j].None? {
          assert CallsUpTo(groups, i, j + 1) == CallsUpTo(groups, i, j);
          continue;
        }
        FoldSnoc(p, CallsUpTo(groups, i, j), Call(g.name, g.hooks[j].value), w, s);
        var (w1, out) := g.hooks[j].value(world, g.name, p.show(current));
        world := w1;
        if out.Failure? {
          StopsHere(p, groups, i, j + 1, w, s);
          return Outcome(world, current, Some(out.error));
        }
        var (w2, next) := p.take(world, current, out.value);
        world, current := w2, next;
      }
    }
    assert groups[..|groups|] == groups;
    return Outcome(world, current, None);
  }
}
