/**
  The hook points: what each runner shows its hooks, what they may change, and what stays
  read-only. Maps are objects on a heap that is part of the world: a hook that is handed a map is
  handed the object, and may write to it.
*/
module HookPoints {
  import opened Wrappers
  import opened Hooks
  import Scopes = MemoryScopes

  // ----- map objects

  type MapId = nat
  type Heap = map<MapId, map<string, string>>

  /** Everything hooks can reach: the map objects, and the rest. */
  datatype World<X> = World(rest: X, heap: Heap)

  /** What a map variable reads as; a nil map reads as empty. */
  function Contents(heap: Heap, m: Option<MapId>): map<string, string> {
    if m.Some? && m.value in heap then heap[m.value] else map[]
  }

  /** Gives the identity of a new object. */
  type Allocator = Heap -> MapId

  /** Never one in use. */
  ghost predicate GivesNew(alloc: Allocator) {
    forall h: Heap :: alloc(h) !in h
  }

  // ----- the calls

  datatype Scope = Scope(userId: string, tenantId: string, agentId: string, tags: Option<MapId>)
  datatype Record = Record(text: string, kind: string, metadata: Option<MapId>, expiresAt: int)

  datatype LoadCall = LoadCall(scope: Scope, query: string, limit: int, minScore: real, kinds: seq<string>)
  datatype LoadChange = LoadChange(query: string, limit: int, minScore: real, kinds: seq<string>)
  datatype LoadedContext = LoadedContext(call: LoadCall, prompt: string)
  datatype StoreCall = StoreCall(scope: Scope, record: Record, id: string)
  datatype StoreChange = StoreChange(record: Record, id: string)

  datatype ToolCall = ToolCall(id: string, name: string, displayName: string, kind: string, args: Option<MapId>)
  datatype Executed = Executed(call: ToolCall, content: string, execErr: Option<string>)
  datatype ResultChange = ResultChange(content: string, execErr: Option<string>)

  datatype RetrieveCall = RetrieveCall(query: string, mode: string, retriever: string)
  datatype Retrieved<D> = Retrieved(call: RetrieveCall, documents: seq<D>)

  /** The scope a memory backend would act on now. */
  function ScopeNow(heap: Heap, s: Scope): Scopes.Scope {
    Scopes.Scope(s.userId, s.tenantId, s.agentId, Contents(heap, s.tags))
  }

  /** The call or an error; after an error the state reached is not returned. */
  function Answer<W, S, E>(o: Outcome<W, S, E>): Result<S, E> {
    match o.err case Some(e) => Failure(e) case None => Success(o.state)
  }

  // ----- what a shared map object keeps

  /** This runner copies no map: only the hooks themselves touch the heap. */
  ghost predicate CopiesNothing<X(!new), S(!new), I, O(!new)>(p: Point<World<X>, S, I, O>) {
    forall w: World<X>, s: S, o: O :: p.take(w, s, o).0 == w
  }

  /** Hook number `k`, if it runs, leaves the contents of `m` as they are. */
  ghost predicate Leaves<X, S, I, O, E>(p: Point<World<X>, S, I, O>, calls: seq<Hooks.Call<World<X>, I, O, E>>, w: World<X>, s: S, m: Option<MapId>, k: nat)
    requires k < |calls|
  {
    var before := Fold(p, calls[..k], w, s);
    before.err.None? ==>
      var (after, _) := calls[k].hook(before.world, calls[k].name, p.show(before.state));
      Contents(after.heap, m) == Contents(before.world.heap, m)
  }

  /** No hook that runs changes the contents of `m`; a nil map cannot be changed. */
  ghost predicate NoneWrites<X, S, I, O, E>(p: Point<World<X>, S, I, O>, calls: seq<Hooks.Call<World<X>, I, O, E>>, w: World<X>, s: S, m: Option<MapId>) {
    m.None? || forall k :: 0 <= k < |calls| ==> Leaves(p, calls, w, s, m, k)
  }

  /** After `k` of the hooks the contents of `m` are what they were before any. */
  ghost predicate SameAfter<X, S, I, O, E>(p: Point<World<X>, S, I, O>, calls: seq<Hooks.Call<World<X>, I, O, E>>, w: World<X>, s: S, m: Option<MapId>, k: nat)
    requires k <= |calls|
  {
    Contents(Fold(p, calls[..k], w, s).world.heap, m) == Contents(w.heap, m)
  }

  lemma OneMore<X(!new), S(!new), I, O(!new), E>(p: Point<World<X>, S, I, O>, calls: seq<Hooks.Call<World<X>, I, O, E>>, w: World<X>, s: S, m: Option<MapId>, k: nat)
    requires CopiesNothing(p) && k < |calls| && SameAfter(p, calls, w, s, m, k)
    ensures SameAfter(p, calls, w, s, m, k + 1) <==> Leaves(p, calls, w, s, m, k)
  {
    assert calls[..k + 1] == calls[..k] + [calls[k]];
    FoldSnoc(p, calls[..k], calls[k], w, s);
    var before := Fold(p, calls[..k], w, s);
    if before.err.None? {
      var (w1, r) := calls[k].hook(before.world, calls[k].name, p.show(before.state));
      assert r.Success? ==> p.take(w1, before.state, r.value).0 == w1;
    }
  }

  lemma {:induction false} SameWhileLeft<X(!new), S(!new), I, O(!new), E>(p: Point<World<X>, S, I, O>, calls: seq<Hooks.Call<World<X>, I, O, E>>, w: World<X>, s: S, m: Option<MapId>, k: nat)
    requires CopiesNothing(p) && k <= |calls| && NoneWrites(p, calls, w, s, m)
    ensures SameAfter(p, calls, w, s, m, k)
  {
    if m.Some? && k > 0 {
      SameWhileLeft(p, calls, w, s, m, k - 1);
      OneMore(p, calls, w, s, m, k - 1);
    }
  }

  /** The contents of `m` are the same at every hook and at the end. */
  ghost predicate MapStays<X, S, I, O, E>(p: Point<World<X>, S, I, O>, calls: seq<Hooks.Call<World<X>, I, O, E>>, w: World<X>, s: S, m: Option<MapId>) {
    forall k :: 0 <= k <= |calls| ==> SameAfter(p, calls, w, s, m, k)
  }

  /** In one run a map stays exactly when it is nil or no hook that runs changes it. */
  lemma SharedMapStaysIff<X(!new), S(!new), I, O(!new), E>(p: Point<World<X>, S, I, O>, calls: seq<Hooks.Call<World<X>, I, O, E>>, w: World<X>, s: S, m: Option<MapId>)
    requires CopiesNothing(p)
    ensures MapStays(p, calls, w, s, m) <==> NoneWrites(p, calls, w, s, m)
  {
    if NoneWrites(p, calls, w, s, m) {
      forall k | 0 <= k <= |calls| ensures SameAfter(p, calls, w, s, m, k) {
        SameWhileLeft(p, calls, w, s, m, k);
      }
    } else if MapStays(p, calls, w, s, m) {
      var k :| 0 <= k < |calls| && !Leaves(p, calls, w, s, m, k);
      OneMore(p, calls, w, s, m, k);
    }
  }

  /** Writing to a map object. */
  type Edit = map<string, string> -> map<string, string>

  function Edited<X>(w: World<X>, m: Option<MapId>, edit: Edit): World<X> {
    if m.Some? then w.(heap := w.heap[m.value := edit(Contents(w.heap, m))]) else w
  }

  /** A hook that writes to a map it is handed, and gives back what it was given. */
  function Writer<X, I, O, E>(of: I -> Option<MapId>, edit: Edit, back: I -> O): Hook<World<X>, I, O, E> {
    (w: World<X>, name: string, i: I) => (Edited(w, of(i), edit), Success(back(i)))
  }

  lemma OneHook<W, S, I, O, E>(p: Point<W, S, I, O>, name: string, hook: Hook<W, I, O, E>, w: W, s: S)
    ensures Flat([Group(name, [Some(hook)])]) == [Hooks.Call(name, hook)]
    ensures Fold(p, Flat([Group(name, [Some(hook)])]), w, s) == One(p, Hooks.Call(name, hook), w, s)
  {
    GroupOrder<W, I, O, E>(name, [], [], hook);
    assert [] + [Hooks.Call(name, hook)] == [Hooks.Call(name, hook)];
    FoldSnoc(p, [], Hooks.Call(name, hook), w, s);
  }

  /** The one group of the one hook that writes. */
  function WriterGroups<X, I, O, E>(of: I -> Option<MapId>, edit: Edit, back: I -> O): seq<Group<World<X>, I, O, E>> {
    [Group("g", [Some(Writer<X, I, O, E>(of, edit, back))])]
  }

  /** What a writer hands on is what the runner makes of an output that changes nothing, and the map is edited. */
  lemma WriterWrites<X(!new), S(!new), I, O(!new), E>(p: Point<World<X>, S, I, O>, of: I -> Option<MapId>, edit: Edit, back: I -> O, w: World<X>, s: S)
    requires CopiesNothing(p) && p.take(Edited(w, of(p.show(s)), edit), s, back(p.show(s))).1 == s
    ensures |Flat(WriterGroups<X, I, O, E>(of, edit, back))| == 1
    ensures Fold(p, Flat(WriterGroups<X, I, O, E>(of, edit, back)), w, s) == Outcome(Edited(w, of(p.show(s)), edit), s, None)
  {
    OneHook(p, "g", Writer<X, I, O, E>(of, edit, back), w, s);
    var w1 := Edited(w, of(p.show(s)), edit);
    assert p.take(w1, s, back(p.show(s))) == (w1, s);
  }

  /** Empties a map, or puts an entry into an empty one. */
  function Spoil(m: map<string, string>): (r: map<string, string>)
    ensures r != m
  {
    if m == map[] then
      assert "" in map["" := ""];
      map["" := ""]
    else map[]
  }

  /** A map the hooks are handed stays whatever they do exactly when it is nil: otherwise a hook that changes nothing of the call can change it. */
  lemma SharedMapIsSafeIff<X(!new), S(!new), I, O(!new), E(!new)>(p: Point<World<X>, S, I, O>, of: I -> Option<MapId>, back: I -> O, w: World<X>, s: S)
    requires CopiesNothing(p) && forall u: World<X> :: p.take(u, s, back(p.show(s))).1 == s
    ensures (forall groups: seq<Group<World<X>, I, O, E>> :: MapStays(p, Flat(groups), w, s, of(p.show(s)))) <==> of(p.show(s)).None?
  {
    var m := of(p.show(s));
    if m.None? {
      forall groups: seq<Group<World<X>, I, O, E>> ensures MapStays(p, Flat(groups), w, s, m) {
        SharedMapStaysIff(p, Flat(groups), w, s, m);
      }
    } else {
      WriterSpoils<X, S, I, O, E>(p, of, back, w, s);
    }
  }

  lemma WriterSpoils<X(!new), S(!new), I, O(!new), E>(p: Point<World<X>, S, I, O>, of: I -> Option<MapId>, back: I -> O, w: World<X>, s: S)
    requires CopiesNothing(p) && (forall u: World<X> :: p.take(u, s, back(p.show(s))).1 == s) && of(p.show(s)).Some?
    ensures !MapStays(p, Flat(WriterGroups<X, I, O, E>(of, Spoil, back)), w, s, of(p.show(s)))
  {
    var calls := Flat(WriterGroups<X, I, O, E>(of, Spoil, back));
    WriterWrites<X, S, I, O, E>(p, of, Spoil, back, w, s);
    assert calls[..1] == calls;
    assert !SameAfter(p, calls, w, s, of(p.show(s)), 1);
  }

  // ----- memory

  function BeforeLoad<X>(): Point<World<X>, LoadCall, LoadCall, LoadChange> {
    Point((c: LoadCall) => c,
      (w: World<X>, c: LoadCall, o: LoadChange) => (w, c.(query := o.query, limit := o.limit, minScore := o.minScore, kinds := o.kinds)))
  }

  function AfterLoad<X>(): Point<World<X>, LoadedContext, LoadedContext, string> {
    Point((s: LoadedContext) => s, (w: World<X>, s: LoadedContext, prompt: string) => (w, s.(prompt := prompt)))
  }

  function BeforeStore<X>(): Point<World<X>, StoreCall, StoreCall, StoreChange> {
    Point((c: StoreCall) => c, (w: World<X>, c: StoreCall, o: StoreChange) => (w, c.(record := o.record, id := o.id)))
  }

  function AfterStore<X, O>(): Point<World<X>, StoreCall, StoreCall, O> {
    Point((c: StoreCall) => c, (w: World<X>, c: StoreCall, o: O) => (w, c))
  }

  /** Every hook before a load, and the load, gets the user, tenant and agent of the call and its tag object. */
  lemma LoadScopeIsReadOnly<X(!new), E>(calls: seq<Hooks.Call<World<X>, LoadCall, LoadChange, E>>, w: World<X>, call: LoadCall, k: nat)
    requires k <= |calls|
    ensures BeforeLoad<X>().show(Fold(BeforeLoad<X>(), calls[..k], w, call).state).scope == call.scope
  {
    StateKeeps(BeforeLoad<X>(), calls[..k], w, call, (c: LoadCall) => c.scope == call.scope);
  }

  /** Every hook before the load, and the load, finds the scope that was asked for. */
  ghost predicate LoadScopeStays<X, E>(calls: seq<Hooks.Call<World<X>, LoadCall, LoadChange, E>>, w: World<X>, call: LoadCall) {
    forall k :: 0 <= k <= |calls| ==>
      var o := Fold(BeforeLoad<X>(), calls[..k], w, call); ScopeNow(o.world.heap, o.state.scope) == ScopeNow(w.heap, call.scope)
  }

  /** In one run the scope stays exactly when there are no tags or no hook that runs changes them. */
  lemma LoadScopeStaysIff<X(!new), E>(calls: seq<Hooks.Call<World<X>, LoadCall, LoadChange, E>>, w: World<X>, call: LoadCall)
    ensures LoadScopeStays(calls, w, call) <==> MapStays(BeforeLoad<X>(), calls, w, call, call.scope.tags)
    ensures LoadScopeStays(calls, w, call) <==> NoneWrites(BeforeLoad<X>(), calls, w, call, call.scope.tags)
  {
    SharedMapStaysIff(BeforeLoad<X>(), calls, w, call, call.scope.tags);
    forall k | 0 <= k <= |calls|
      ensures var o := Fold(BeforeLoad<X>(), calls[..k], w, call);
        ScopeNow(o.world.heap, o.state.scope) == ScopeNow(w.heap, call.scope) <==> SameAfter(BeforeLoad<X>(), calls, w, call, call.scope.tags, k)
    {
      LoadScopeIsReadOnly(calls, w, call, k);
    }
  }

  /** The output that changes nothing of a load. */
  function SameLoad(c: LoadCall): LoadChange {
    LoadChange(c.query, c.limit, c.minScore, c.kinds)
  }

  /** The scope of a load is read-only, whatever the hooks do, exactly when it has no tags. */
  lemma LoadScopeIsSafeIff<X(!new), E(!new)>(w: World<X>, call: LoadCall)
    ensures (forall groups: seq<Group<World<X>, LoadCall, LoadChange, E>> :: LoadScopeStays(Flat(groups), w, call)) <==> call.scope.tags.None?
  {
    forall groups: seq<Group<World<X>, LoadCall, LoadChange, E>>
      ensures LoadScopeStays(Flat(groups), w, call) <==> MapStays(BeforeLoad<X>(), Flat(groups), w, call, call.scope.tags)
    {
      LoadScopeStaysIff(Flat(groups), w, call);
    }
    SharedMapIsSafeIff<X, LoadCall, LoadCall, LoadChange, E>(BeforeLoad<X>(), (c: LoadCall) => c.scope.tags, SameLoad, w, call);
  }

  /** What the hooks below write to the tags they are shown. */
  function ToProjectB(tags: map<string, string>): map<string, string> {
    tags["project" := "b"]
  }


  lemma ProjectsDiffer(a: Scopes.Scope, b: Scopes.Scope)
    requires a == Scopes.Scope("", "", "", map["project" := "a"]) && b == Scopes.Scope("", "", "", map["project" := "b"])
    ensures Scopes.Matches(b, b) && !Scopes.Matches(a, b)
  {
    Scopes.MatchingIsAPreorder(b, b, b);
    Scopes.MatchesIffFieldsMatch(a, b);
    assert !Scopes.Reserved("project") by {
      assert "project"[0] != "user_id"[0] && |"project"| == 7;
    }
    assert "project" in b.tags && a.tags["project"] != b.tags["project"];
  }

  /**
    A hook before a load can move it: the call asks for project "a", the hook's output changes
    nothing, and the load is run in project "b", where it matches b's records and not a's.
  */
  lemma HookMovesTheLoad()
    ensures var call := LoadCall(Scope("", "", "", Some(0)), "", 0, 0.0, []);
      var w := World((), map[0 := map["project" := "a"]]);
      var o := Fold(BeforeLoad<()>(), Flat(WriterGroups<(), LoadCall, LoadChange, string>((c: LoadCall) => c.scope.tags, ToProjectB, SameLoad)), w, call);
      var a, b := ScopeNow(w.heap, call.scope), ScopeNow(o.world.heap, o.state.scope);
      && o.err == None && o.state == call
      && a.tags == map["project" := "a"] && b.tags == map["project" := "b"]
      && Scopes.Matches(b, b) && !Scopes.Matches(a, b)
  {
    var call := LoadCall(Scope("", "", "", Some(0)), "", 0, 0.0, []);
    var w := World((), map[0 := map["project" := "a"]]);
    var moved := Edited(w, Some(0), ToProjectB);
    WriterWrites<(), LoadCall, LoadCall, LoadChange, string>(BeforeLoad<()>(), (c: LoadCall) => c.scope.tags, ToProjectB, SameLoad, w, call);
    assert Contents(moved.heap, Some(0)) == map["project" := "b"];
    ProjectsDiffer(ScopeNow(w.heap, call.scope), ScopeNow(moved.heap, call.scope));
  }

  /** After a load every hook gets the call itself, and only the prompt context moves on. */
  lemma LoadedCallIsReadOnly<X(!new), E>(calls: seq<Hooks.Call<World<X>, LoadedContext, string, E>>, w: World<X>, s: LoadedContext, k: nat)
    requires k <= |calls|
    ensures AfterLoad<X>().show(Fold(AfterLoad<X>(), calls[..k], w, s).state).call == s.call
  {
    StateKeeps(AfterLoad<X>(), calls[..k], w, s, (t: LoadedContext) => t.call == s.call);
  }

  /** Every hook after a load finds the scope of the call. */
  ghost predicate LoadedScopeStays<X, E>(calls: seq<Hooks.Call<World<X>, LoadedContext, string, E>>, w: World<X>, s: LoadedContext) {
    forall k :: 0 <= k <= |calls| ==>
      var o := Fold(AfterLoad<X>(), calls[..k], w, s); ScopeNow(o.world.heap, o.state.call.scope) == ScopeNow(w.heap, s.call.scope)
  }

  lemma LoadedScopeStaysIff<X(!new), E>(calls: seq<Hooks.Call<World<X>, LoadedContext, string, E>>, w: World<X>, s: LoadedContext)
    ensures LoadedScopeStays(calls, w, s) <==> MapStays(AfterLoad<X>(), calls, w, s, s.call.scope.tags)
    ensures LoadedScopeStays(calls, w, s) <==> NoneWrites(AfterLoad<X>(), calls, w, s, s.call.scope.tags)
  {
    SharedMapStaysIff(AfterLoad<X>(), calls, w, s, s.call.scope.tags);
    forall k | 0 <= k <= |calls|
      ensures var o := Fold(AfterLoad<X>(), calls[..k], w, s);
        ScopeNow(o.world.heap, o.state.call.scope) == ScopeNow(w.heap, s.call.scope) <==> SameAfter(AfterLoad<X>(), calls, w, s, s.call.scope.tags, k)
    {
      LoadedCallIsReadOnly(calls, w, s, k);
    }
  }

  /** The scope of a load that was made is read-only, whatever the hooks after it do, exactly when it has no tags. */
  lemma LoadedScopeIsSafeIff<X(!new), E(!new)>(w: World<X>, s: LoadedContext)
    ensures (forall groups: seq<Group<World<X>, LoadedContext, string, E>> :: LoadedScopeStays(Flat(groups), w, s)) <==> s.call.scope.tags.None?
  {
    forall groups: seq<Group<World<X>, LoadedContext, string, E>>
      ensures LoadedScopeStays(Flat(groups), w, s) <==> MapStays(AfterLoad<X>(), Flat(groups), w, s, s.call.scope.tags)
    {
      LoadedScopeStaysIff(Flat(groups), w, s);
    }
    SharedMapIsSafeIff<X, LoadedContext, LoadedContext, string, E>(AfterLoad<X>(), (t: LoadedContext) => t.call.scope.tags, (t: LoadedContext) => t.prompt, w, s);
  }

  /** Every hook before a store, and the store, gets the user, tenant and agent of the call and its tag object. */
  lemma StoreScopeIsReadOnly<X(!new), E>(calls: seq<Hooks.Call<World<X>, StoreCall, StoreChange, E>>, w: World<X>, call: StoreCall, k: nat)
    requires k <= |calls|
    ensures BeforeStore<X>().show(Fold(BeforeStore<X>(), calls[..k], w, call).state).scope == call.scope
  {
    StateKeeps(BeforeStore<X>(), calls[..k], w, call, (c: StoreCall) => c.scope == call.scope);
  }

  /** Every hook before the store, and the store, finds the scope that was asked for. */
  ghost predicate StoreScopeStays<X, E>(calls: seq<Hooks.Call<World<X>, StoreCall, StoreChange, E>>, w: World<X>, call: StoreCall) {
    forall k :: 0 <= k <= |calls| ==>
      var o := Fold(BeforeStore<X>(), calls[..k], w, call); ScopeNow(o.world.heap, o.state.scope) == ScopeNow(w.heap, call.scope)
  }

  lemma StoreScopeStaysIff<X(!new), E>(calls: seq<Hooks.Call<World<X>, StoreCall, StoreChange, E>>, w: World<X>, call: StoreCall)
    ensures StoreScopeStays(calls, w, call) <==> MapStays(BeforeStore<X>(), calls, w, call, call.scope.tags)
    ensures StoreScopeStays(calls, w, call) <==> NoneWrites(BeforeStore<X>(), calls, w, call, call.scope.tags)
  {
    SharedMapStaysIff(BeforeStore<X>(), calls, w, call, call.scope.tags);
    forall k | 0 <= k <= |calls|
      ensures var o := Fold(BeforeStore<X>(), calls[..k], w, call);
        ScopeNow(o.world.heap, o.state.scope) == ScopeNow(w.heap, call.scope) <==> SameAfter(BeforeStore<X>(), calls, w, call, call.scope.tags, k)
    {
      StoreScopeIsReadOnly(calls, w, call, k);
    }
  }

  /** The output that changes nothing of a store. */
  function SameStore(c: StoreCall): StoreChange {
    StoreChange(c.record, c.id)
  }

  /** The scope of a store is read-only, whatever the hooks do, exactly when it has no tags. */
  lemma StoreScopeIsSafeIff<X(!new), E(!new)>(w: World<X>, call: StoreCall)
    ensures (forall groups: seq<Group<World<X>, StoreCall, StoreChange, E>> :: StoreScopeStays(Flat(groups), w, call)) <==> call.scope.tags.None?
  {
    forall groups: seq<Group<World<X>, StoreCall, StoreChange, E>>
      ensures StoreScopeStays(Flat(groups), w, call) <==> MapStays(BeforeStore<X>(), Flat(groups), w, call, call.scope.tags)
    {
      StoreScopeStaysIff(Flat(groups), w, call);
    }
    SharedMapIsSafeIff<X, StoreCall, StoreCall, StoreChange, E>(BeforeStore<X>(), (c: StoreCall) => c.scope.tags, SameStore, w, call);
  }

  /** A hook before a store can move it in the same way: the record of project "a" is stored in project "b". */
  lemma HookMovesTheStore(record: Record, id: string)
    ensures var call := StoreCall(Scope("", "", "", Some(0)), record, id);
      var w := World((), map[0 := map["project" := "a"]]);
      var o := Fold(BeforeStore<()>(), Flat(WriterGroups<(), StoreCall, StoreChange, string>((c: StoreCall) => c.scope.tags, ToProjectB, SameStore)), w, call);
      var a, b := ScopeNow(w.heap, call.scope), ScopeNow(o.world.heap, o.state.scope);
      && o.err == None && o.state == call
      && a.tags == map["project" := "a"] && b.tags == map["project" := "b"]
      && Scopes.Matches(b, b) && !Scopes.Matches(a, b)
  {
    var call := StoreCall(Scope("", "", "", Some(0)), record, id);
    var w := World((), map[0 := map["project" := "a"]]);
    var moved := Edited(w, Some(0), ToProjectB);
    WriterWrites<(), StoreCall, StoreCall, StoreChange, string>(BeforeStore<()>(), (c: StoreCall) => c.scope.tags, ToProjectB, SameStore, w, call);
    assert Contents(moved.heap, Some(0)) == map["project" := "b"];
    ProjectsDiffer(ScopeNow(w.heap, call.scope), ScopeNow(moved.heap, call.scope));
  }

  /** After a store every hook gets the stored scope, record and id themselves. */
  lemma StoredCallIsReadOnly<X(!new), O(!new), E>(calls: seq<Hooks.Call<World<X>, StoreCall, O, E>>, w: World<X>, call: StoreCall, k: nat)
    requires k <= |calls|
    ensures AfterStore<X, O>().show(Fold(AfterStore<X, O>(), calls[..k], w, call).state) == call
  {
    StateKeeps(AfterStore<X, O>(), calls[..k], w, call, (c: StoreCall) => c == call);
  }

  /** Every hook after a store finds the scope and metadata that were stored. */
  ghost predicate StoredCallStays<X, O, E>(calls: seq<Hooks.Call<World<X>, StoreCall, O, E>>, w: World<X>, call: StoreCall) {
    forall k :: 0 <= k <= |calls| ==>
      var o := Fold(AfterStore<X, O>(), calls[..k], w, call);
      && ScopeNow(o.world.heap, o.state.scope) == ScopeNow(w.heap, call.scope)
      && Contents(o.world.heap, o.state.record.metadata) == Contents(w.heap, call.record.metadata)
  }

  lemma StoredCallStaysIff<X(!new), O(!new), E>(calls: seq<Hooks.Call<World<X>, StoreCall, O, E>>, w: World<X>, call: StoreCall)
    ensures StoredCallStays(calls, w, call) <==>
      MapStays(AfterStore<X, O>(), calls, w, call, call.scope.tags) && MapStays(AfterStore<X, O>(), calls, w, call, call.record.metadata)
    ensures StoredCallStays(calls, w, call) <==>
      NoneWrites(AfterStore<X, O>(), calls, w, call, call.scope.tags) && NoneWrites(AfterStore<X, O>(), calls, w, call, call.record.metadata)
  {
    var p := AfterStore<X, O>();
    SharedMapStaysIff(p, calls, w, call, call.scope.tags);
    SharedMapStaysIff(p, calls, w, call, call.record.metadata);
    forall k | 0 <= k <= |calls|
      ensures var o := Fold(p, calls[..k], w, call);
        && (ScopeNow(o.world.heap, o.state.scope) == ScopeNow(w.heap, call.scope) <==> SameAfter(p, calls, w, call, call.scope.tags, k))
        && (Contents(o.world.heap, o.state.record.metadata) == Contents(w.heap, call.record.metadata) <==>
            SameAfter(p, calls, w, call, call.record.metadata, k))
    {
      StoredCallIsReadOnly(calls, w, call, k);
    }
  }

  /** What was stored is read-only, whatever the hooks after the store do, exactly when it has neither tags nor metadata. */
  lemma StoredCallIsSafeIff<X(!new), E(!new)>(w: World<X>, call: StoreCall)
    ensures (forall groups: seq<Group<World<X>, StoreCall, (), E>> :: StoredCallStays(Flat(groups), w, call))
      <==> call.scope.tags.None? && call.record.metadata.None?
  {
    var p := AfterStore<X, ()>();
    forall groups: seq<Group<World<X>, StoreCall, (), E>>
      ensures StoredCallStays(Flat(groups), w, call) <==>
        MapStays(p, Flat(groups), w, call, call.scope.tags) && MapStays(p, Flat(groups), w, call, call.record.metadata)
    {
      StoredCallStaysIff(Flat(groups), w, call);
    }
    SharedMapIsSafeIff<X, StoreCall, StoreCall, (), E>(p, (c: StoreCall) => c.scope.tags, (c: StoreCall) => (), w, call);
    SharedMapIsSafeIff<X, StoreCall, StoreCall, (), E>(p, (c: StoreCall) => c.record.metadata, (c: StoreCall) => (), w, call);
  }

  /** What hook number `k` answers when it is reached. */
  ghost function OutputOf<W, S, I, O, E>(p: Point<W, S, I, O>, calls: seq<Hooks.Call<W, I, O, E>>, w: W, s: S, k: nat): (W, Result<O, E>)
    requires k < |calls|
  {
    var before := Fold(p, calls[..k], w, s);
    calls[k].hook(before.world, calls[k].name, p.show(before.state))
  }

  /** Hook number `k` is reached and succeeds. */
  ghost predicate Succeeds<W, S, I, O, E>(p: Point<W, S, I, O>, calls: seq<Hooks.Call<W, I, O, E>>, w: W, s: S, k: nat)
    requires k < |calls|
  {
    Fold(p, calls[..k], w, s).err.None? && OutputOf(p, calls, w, s, k).1.Success?
  }

  /** The query and options a hook before a load returns are what the next hook, or the load, gets. */
  lemma LoadHookIsHeard<X, E>(calls: seq<Hooks.Call<World<X>, LoadCall, LoadChange, E>>, w: World<X>, call: LoadCall, k: nat)
    requires k < |calls| && Succeeds(BeforeLoad<X>(), calls, w, call, k)
    ensures var o, out := Fold(BeforeLoad<X>(), calls[..k + 1], w, call), OutputOf(BeforeLoad<X>(), calls, w, call, k).1.value;
      var seen := BeforeLoad<X>().show(o.state);
      && o.err.None? && seen == o.state
      && seen.query == out.query && seen.limit == out.limit && seen.minScore == out.minScore && seen.kinds == out.kinds
  {
    HookIsHeard(BeforeLoad<X>(), calls, w, call, k);
  }

  /** The prompt context a hook after a load returns is what the next hook, or the prompt, gets. */
  lemma LoadedHookIsHeard<X, E>(calls: seq<Hooks.Call<World<X>, LoadedContext, string, E>>, w: World<X>, s: LoadedContext, k: nat)
    requires k < |calls| && Succeeds(AfterLoad<X>(), calls, w, s, k)
    ensures var o, out := Fold(AfterLoad<X>(), calls[..k + 1], w, s), OutputOf(AfterLoad<X>(), calls, w, s, k).1.value;
      o.err.None? && AfterLoad<X>().show(o.state) == o.state && o.state.prompt == out
  {
    HookIsHeard(AfterLoad<X>(), calls, w, s, k);
  }

  /** The record and id a hook before a store returns are what the next hook, or the store, gets. */
  lemma StoreHookIsHeard<X, E>(calls: seq<Hooks.Call<World<X>, StoreCall, StoreChange, E>>, w: World<X>, call: StoreCall, k: nat)
    requires k < |calls| && Succeeds(BeforeStore<X>(), calls, w, call, k)
    ensures var o, out := Fold(BeforeStore<X>(), calls[..k + 1], w, call), OutputOf(BeforeStore<X>(), calls, w, call, k).1.value;
      var seen := BeforeStore<X>().show(o.state);
      o.err.None? && seen == o.state && seen.record == out.record && seen.id == out.id
  {
    HookIsHeard(BeforeStore<X>(), calls, w, call, k);
  }

  method RunBeforeMemoryLoad<X(!new), E>(groups: seq<Group<World<X>, LoadCall, LoadChange, E>>, w: World<X>, call: LoadCall)
      returns (world: World<X>, r: Result<LoadCall, E>)
    ensures var o := Fold(BeforeLoad<X>(), Flat(groups), w, call); world == o.world && r == match o.err case Some(e) => Failure(e) case None => Success(o.state)
    ensures r.Success? ==> r.value.scope == call.scope
  {
    var o := Run(BeforeLoad<X>(), groups, w, call);
    LoadScopeIsReadOnly(Flat(groups), w, call, |Flat(groups)|);
    assert Flat(groups)[..|Flat(groups)|] == Flat(groups);
    return o.world, Answer(o);
  }

  method RunAfterMemoryLoad<X, E>(groups: seq<Group<World<X>, LoadedContext, string, E>>, w: World<X>, call: LoadCall, prompt: string)
      returns (world: World<X>, r: Result<string, E>)
    ensures var o := Fold(AfterLoad<X>(), Flat(groups), w, LoadedContext(call, prompt));
      world == o.world && r == match o.err case Some(e) => Failure(e) case None => Success(o.state.prompt)
  {
    var o := Run(AfterLoad<X>(), groups, w, LoadedContext(call, prompt));
    r := match o.err case Some(e) => Failure(e) case None => Success(o.state.prompt);
    world := o.world;
  }

  method RunBeforeMemoryStore<X(!new), E>(groups: seq<Group<World<X>, StoreCall, StoreChange, E>>, w: World<X>, call: StoreCall)
      returns (world: World<X>, r: Result<StoreCall, E>)
    ensures var o := Fold(BeforeStore<X>(), Flat(groups), w, call); world == o.world && r == match o.err case Some(e) => Failure(e) case None => Success(o.state)
    ensures r.Success? ==> r.value.scope == call.scope
  {
    var o := Run(BeforeStore<X>(), groups, w, call);
    StoreScopeIsReadOnly(Flat(groups), w, call, |Flat(groups)|);
    assert Flat(groups)[..|Flat(groups)|] == Flat(groups);
    return o.world, Answer(o);
  }

  method RunAfterMemoryStore<X, O, E>(groups: seq<Group<World<X>, StoreCall, O, E>>, w: World<X>, call: StoreCall)
      returns (world: World<X>, err: Option<E>)
    ensures var o := Fold(AfterStore<X, O>(), Flat(groups), w, call); world == o.world && err == o.err
  {
    var o := Run(AfterStore<X, O>(), groups, w, call);
    return o.world, o.err;
  }

  // ----- tools

  predicate HooksEligible(kind: string) {
    kind == "native" || kind == "mcp"
  }

  /** A new object with the same contents; none for an empty map. */
  function Cloned<X>(alloc: Allocator, w: World<X>, m: Option<MapId>): (r: (World<X>, Option<MapId>))
    ensures Contents(r.0.heap, r.1) == Contents(w.heap, m)
    ensures GivesNew(alloc) ==>
      && (forall i :: i in w.heap ==> i in r.0.heap && r.0.heap[i] == w.heap[i])
      && (r.1.Some? ==> r.1.value !in w.heap)
  {
    if Contents(w.heap, m) == map[] then (w, None)
    else
      var id := alloc(w.heap);
      (w.(heap := w.heap[id := Contents(w.heap, m)]), Some(id))
  }

  /** The arguments of each output are copied, so that only the first hook shares the caller's. */
  function BeforeTool<X>(alloc: Allocator): Point<World<X>, ToolCall, ToolCall, Option<MapId>> {
    Point((c: ToolCall) => c,
      (w: World<X>, c: ToolCall, args: Option<MapId>) => var (w1, copy) := Cloned(alloc, w, args); (w1, c.(args := copy)))
  }

  function AfterTool<X>(): Point<World<X>, Executed, Executed, ResultChange> {
    Point((s: Executed) => s, (w: World<X>, s: Executed, o: ResultChange) => (w, s.(content := o.content, execErr := o.execErr)))
  }

  /** Hooks change a tool call's arguments and nothing else of it. */
  lemma OnlyArgsChange<X(!new), E>(alloc: Allocator, calls: seq<Hooks.Call<World<X>, ToolCall, Option<MapId>, E>>, w: World<X>, call: ToolCall, k: nat)
    requires k <= |calls|
    ensures var seen := BeforeTool<X>(alloc).show(Fold(BeforeTool<X>(alloc), calls[..k], w, call).state); seen == call.(args := seen.args)
  {
    StateKeeps(BeforeTool<X>(alloc), calls[..k], w, call, (c: ToolCall) => c == call.(args := c.args));
  }

  /** After a tool ran every hook gets its call itself: id, name, kind and argument object. */
  lemma ExecutedCallIsReadOnly<X(!new), E>(calls: seq<Hooks.Call<World<X>, Executed, ResultChange, E>>, w: World<X>, s: Executed, k: nat)
    requires k <= |calls|
    ensures AfterTool<X>().show(Fold(AfterTool<X>(), calls[..k], w, s).state).call == s.call
  {
    StateKeeps(AfterTool<X>(), calls[..k], w, s, (t: Executed) => t.call == s.call);
  }

  /** Every hook after a tool finds the arguments the tool was called with. */
  ghost predicate ExecutedArgsStay<X, E>(calls: seq<Hooks.Call<World<X>, Executed, ResultChange, E>>, w: World<X>, s: Executed) {
    forall k :: 0 <= k <= |calls| ==>
      var o := Fold(AfterTool<X>(), calls[..k], w, s); Contents(o.world.heap, o.state.call.args) == Contents(w.heap, s.call.args)
  }

  lemma ExecutedArgsStayIff<X(!new), E>(calls: seq<Hooks.Call<World<X>, Executed, ResultChange, E>>, w: World<X>, s: Executed)
    ensures ExecutedArgsStay(calls, w, s) <==> MapStays(AfterTool<X>(), calls, w, s, s.call.args)
    ensures ExecutedArgsStay(calls, w, s) <==> NoneWrites(AfterTool<X>(), calls, w, s, s.call.args)
  {
    SharedMapStaysIff(AfterTool<X>(), calls, w, s, s.call.args);
    forall k | 0 <= k <= |calls|
      ensures var o := Fold(AfterTool<X>(), calls[..k], w, s);
        Contents(o.world.heap, o.state.call.args) == Contents(w.heap, s.call.args) <==> SameAfter(AfterTool<X>(), calls, w, s, s.call.args, k)
    {
      ExecutedCallIsReadOnly(calls, w, s, k);
    }
  }

  /** The arguments a hook before a tool returns, as they read then, are what the next hook, or the tool, gets. */
  lemma ToolHookIsHeard<X, E>(alloc: Allocator, calls: seq<Hooks.Call<World<X>, ToolCall, Option<MapId>, E>>, w: World<X>, call: ToolCall, k: nat)
    requires k < |calls| && Succeeds(BeforeTool<X>(alloc), calls, w, call, k)
    ensures var o, answer := Fold(BeforeTool<X>(alloc), calls[..k + 1], w, call), OutputOf(BeforeTool<X>(alloc), calls, w, call, k);
      && o.err.None? && BeforeTool<X>(alloc).show(o.state) == o.state
      && Contents(o.world.heap, o.state.args) == Contents(answer.0.heap, answer.1.value)
  {
    HookIsHeard(BeforeTool<X>(alloc), calls, w, call, k);
  }

  /** The content and execution error a hook after a tool returns are what the next hook, or the agent, gets. */
  lemma ExecutedHookIsHeard<X, E>(calls: seq<Hooks.Call<World<X>, Executed, ResultChange, E>>, w: World<X>, s: Executed, k: nat)
    requires k < |calls| && Succeeds(AfterTool<X>(), calls, w, s, k)
    ensures var o, out := Fold(AfterTool<X>(), calls[..k + 1], w, s), OutputOf(AfterTool<X>(), calls, w, s, k).1.value;
      o.err.None? && AfterTool<X>().show(o.state) == o.state && o.state.content == out.content && o.state.execErr == out.execErr
  {
    HookIsHeard(AfterTool<X>(), calls, w, s, k);
  }

  /** The hooks that run for a tool of this kind. */
  function EligibleCalls<W, I, O, E>(kind: string, groups: seq<Group<W, I, O, E>>): seq<Hooks.Call<W, I, O, E>> {
    if HooksEligible(kind) then Flat(groups) else []
  }

  /** The arguments of a tool that ran are read-only, whatever the hooks after it do, exactly when there are none or its kind has no hooks. */
  lemma ExecutedArgsAreSafeIff<X(!new), E(!new)>(w: World<X>, s: Executed)
    ensures (forall groups: seq<Group<World<X>, Executed, ResultChange, E>> :: ExecutedArgsStay(EligibleCalls(s.call.kind, groups), w, s))
      <==> s.call.args.None? || (s.call.kind != "native" && s.call.kind != "mcp")
  {
    if HooksEligible(s.call.kind) {
      forall groups: seq<Group<World<X>, Executed, ResultChange, E>>
        ensures ExecutedArgsStay(EligibleCalls(s.call.kind, groups), w, s) <==> MapStays(AfterTool<X>(), Flat(groups), w, s, s.call.args)
      {
        ExecutedArgsStayIff(Flat(groups), w, s);
      }
      SharedMapIsSafeIff<X, Executed, Executed, ResultChange, E>(AfterTool<X>(), (t: Executed) => t.call.args,
        (t: Executed) => ResultChange(t.content, t.execErr), w, s);
    }
  }

  // ----- which hooks share the caller's arguments

  /** A hook never takes an object away. */
  ghost predicate KeepsObjects<X(!new), E>(h: Hook<World<X>, ToolCall, Option<MapId>, E>) {
    forall w: World<X>, name: string, c: ToolCall :: w.heap.Keys <= h(w, name, c).0.heap.Keys
  }

  /** A hook writes to no object but the arguments it is handed. */
  ghost predicate WritesOnlyArgs<X(!new), E>(h: Hook<World<X>, ToolCall, Option<MapId>, E>) {
    forall w: World<X>, name: string, c: ToolCall :: SameBut(w.heap, h(w, name, c).0.heap, c.args)
  }

  /** All of the objects of `before` are in `after`, and all but `m` as they were. */
  ghost predicate SameBut(before: Heap, after: Heap, m: Option<MapId>) {
    forall id :: id in before ==> id in after && (m != Some(id) ==> after[id] == before[id])
  }

  lemma ObjectsStay<X(!new), E>(alloc: Allocator, calls: seq<Hooks.Call<World<X>, ToolCall, Option<MapId>, E>>, w: World<X>, call: ToolCall)
    requires GivesNew(alloc) && forall i :: 0 <= i < |calls| ==> KeepsObjects(calls[i].hook)
    ensures w.heap.Keys <= Fold(BeforeTool<X>(alloc), calls, w, call).world.heap.Keys
  {
    var p := BeforeTool<X>(alloc);
    forall i: nat, u: World<X>, t: ToolCall | i < |calls| && w.heap.Keys <= u.heap.Keys
      ensures w.heap.Keys <= One(p, calls[i], u, t).world.heap.Keys
    {
      assert u.heap.Keys <= calls[i].hook(u, calls[i].name, t).0.heap.Keys;
    }
    FoldKeeps(p, calls, w, call, (u: World<X>, t: ToolCall) => w.heap.Keys <= u.heap.Keys);
  }

  /** From the second hook on, and in the call made, the arguments are an object that was not on the caller's heap. */
  lemma LaterHooksGetNewArgs<X(!new), E>(alloc: Allocator, calls: seq<Hooks.Call<World<X>, ToolCall, Option<MapId>, E>>, w: World<X>, call: ToolCall, k: nat)
    requires GivesNew(alloc) && 1 <= k <= |calls| && forall i :: 0 <= i < |calls| ==> KeepsObjects(calls[i].hook)
    ensures var o := Fold(BeforeTool<X>(alloc), calls[..k], w, call);
      o.err.None? && o.state.args.Some? ==> o.state.args.value !in w.heap
  {
    var p, c := BeforeTool<X>(alloc), calls[k - 1];
    assert calls[..k] == calls[..k - 1] + [c];
    FoldSnoc(p, calls[..k - 1], c, w, call);
    ObjectsStay(alloc, calls[..k - 1], w, call);
    var before := Fold(p, calls[..k - 1], w, call);
    assert before.world.heap.Keys <= c.hook(before.world, c.name, before.state).0.heap.Keys;
  }

  /** Of hooks that write only to the arguments they are handed, none but the first can change anything on the caller's heap. */
  lemma {:induction false} OnlyTheFirstHookSharesArgs<X(!new), E>(alloc: Allocator, calls: seq<Hooks.Call<World<X>, ToolCall, Option<MapId>, E>>, w: World<X>, call: ToolCall, k: nat, id: MapId)
    requires GivesNew(alloc) && 1 <= k <= |calls| && id in w.heap
    requires forall i :: 0 <= i < |calls| ==> WritesOnlyArgs(calls[i].hook)
    ensures var first, o := Fold(BeforeTool<X>(alloc), calls[..1], w, call), Fold(BeforeTool<X>(alloc), calls[..k], w, call);
      id in first.world.heap && id in o.world.heap && o.world.heap[id] == first.world.heap[id]
  {
    var p := BeforeTool<X>(alloc);
    forall i | 0 <= i < |calls| ensures KeepsObjects(calls[i].hook) {
      WritersKeepObjects(calls[i].hook);
    }
    if k == 1 {
      ObjectsStay(alloc, calls[..1], w, call);
    } else {
      OnlyTheFirstHookSharesArgs(alloc, calls, w, call, k - 1, id);
      LaterHooksGetNewArgs(alloc, calls, w, call, k - 1);
      var c := calls[k - 1];
      assert calls[..k] == calls[..k - 1] + [c];
      FoldSnoc(p, calls[..k - 1], c, w, call);
      var before := Fold(p, calls[..k - 1], w, call);
      if before.err.None? {
        OneLeavesOthers(alloc, c, before.world, before.state, id);
      }
    }
  }

  lemma WritersKeepObjects<X(!new), E>(h: Hook<World<X>, ToolCall, Option<MapId>, E>)
    requires WritesOnlyArgs(h)
    ensures KeepsObjects(h)
  {
    forall w: World<X>, name: string, c: ToolCall ensures w.heap.Keys <= h(w, name, c).0.heap.Keys {
      assert SameBut(w.heap, h(w, name, c).0.heap, c.args);
    }
  }

  lemma OneLeavesOthers<X(!new), E>(alloc: Allocator, c: Hooks.Call<World<X>, ToolCall, Option<MapId>, E>, w: World<X>, call: ToolCall, id: MapId)
    requires GivesNew(alloc) && WritesOnlyArgs(c.hook) && id in w.heap && call.args != Some(id)
    ensures var o := One(BeforeTool<X>(alloc), c, w, call); id in o.world.heap && o.world.heap[id] == w.heap[id]
  {
    assert SameBut(w.heap, c.hook(w, c.name, call).0.heap, call.args);
  }

  /** No hook runs for a kind that is not eligible; otherwise only the arguments may differ. */
  method RunBeforeTool<X(!new), E>(alloc: Allocator, groups: seq<Group<World<X>, ToolCall, Option<MapId>, E>>, w: World<X>, call: ToolCall)
      returns (world: World<X>, r: Result<ToolCall, E>)
    ensures call.kind != "native" && call.kind != "mcp" ==> world == w && r == Success(call)
    ensures call.kind == "native" || call.kind == "mcp" ==> var o := Fold(BeforeTool<X>(alloc), Flat(groups), w, call); world == o.world && r == match o.err case Some(e) => Failure(e) case None => Success(o.state)
    ensures r.Success? ==> r.value == call.(args := r.value.args)
  {
    if !HooksEligible(call.kind) {
      return w, Success(call);
    }
    var o := Run(BeforeTool<X>(alloc), groups, w, call);
    OnlyArgsChange(alloc, Flat(groups), w, call, |Flat(groups)|);
    assert Flat(groups)[..|Flat(groups)|] == Flat(groups);
    return o.world, Answer(o);
  }

  /** After an error the content and execution error reached so far are still returned. */
  method RunAfterTool<X(!new), E>(groups: seq<Group<World<X>, Executed, ResultChange, E>>, w: World<X>, call: ToolCall, content: string, execErr: Option<string>)
      returns (world: World<X>, newContent: string, newErr: Option<string>, err: Option<E>)
    ensures call.kind != "native" && call.kind != "mcp" ==> world == w && newContent == content && newErr == execErr && err == None
    ensures call.kind == "native" || call.kind == "mcp" ==>
      Fold(AfterTool<X>(), Flat(groups), w, Executed(call, content, execErr)) == Outcome(world, Executed(call, newContent, newErr), err)
  {
    if !HooksEligible(call.kind) {
      return w, content, execErr, None;
    }
    var o := Run(AfterTool<X>(), groups, w, Executed(call, content, execErr));
    ExecutedCallIsReadOnly(Flat(groups), w, Executed(call, content, execErr), |Flat(groups)|);
    assert Flat(groups)[..|Flat(groups)|] == Flat(groups);
    return o.world, o.state.content, o.state.execErr, o.err;
  }

  // ----- model calls

  /** A model request or response is replaced whole. */
  function Replaced<W, Q>(): Point<W, Q, Q, Q> {
    Point((q: Q) => q, (w: W, q: Q, o: Q) => (w, o))
  }

  /**
    The runner before a model call, on requests, and the one after it, on responses, are this one.
    What a request points to is part of the world, so hooks may also edit it in place.
  */
  method RunLLM<W, Q, E>(groups: seq<Group<W, Q, Q, E>>, w: W, q: Q) returns (world: W, r: Result<Q, E>)
    ensures var o := Fold(Replaced<W, Q>(), Flat(groups), w, q); world == o.world && r == match o.err case Some(e) => Failure(e) case None => Success(o.state)
  {
    var o := Run(Replaced<W, Q>(), groups, w, q);
    return o.world, Answer(o);
  }

  /** The request or response a hook returns is what the next hook, or the model or agent, gets. */
  lemma LLMHookIsHeard<W, Q, E>(calls: seq<Hooks.Call<W, Q, Q, E>>, w: W, q: Q, k: nat)
    requires k < |calls| && Succeeds(Replaced<W, Q>(), calls, w, q, k)
    ensures var o, answer := Fold(Replaced<W, Q>(), calls[..k + 1], w, q), OutputOf(Replaced<W, Q>(), calls, w, q, k);
      o.err.None? && Replaced<W, Q>().show(o.state) == o.state == answer.1.value && o.world == answer.0
  {
    HookIsHeard(Replaced<W, Q>(), calls, w, q, k);
  }

  // ----- retrieval

  function BeforeRetrieve<W>(): Point<W, RetrieveCall, RetrieveCall, string> {
    Point((c: RetrieveCall) => c, (w: W, c: RetrieveCall, query: string) => (w, c.(query := query)))
  }

  function AfterRetrieve<W, D>(): Point<W, Retrieved<D>, Retrieved<D>, seq<D>> {
    Point((s: Retrieved<D>) => s, (w: W, s: Retrieved<D>, documents: seq<D>) => (w, s.(documents := documents)))
  }

  /** Hooks rewrite the query; the mode and the retriever stay. */
  lemma OnlyQueryChanges<W(!new), E>(calls: seq<Hooks.Call<W, RetrieveCall, string, E>>, w: W, call: RetrieveCall, k: nat)
    requires k <= |calls|
    ensures var seen := BeforeRetrieve<W>().show(Fold(BeforeRetrieve<W>(), calls[..k], w, call).state); seen == call.(query := seen.query)
  {
    StateKeeps(BeforeRetrieve<W>(), calls[..k], w, call, (c: RetrieveCall) => c == call.(query := c.query));
  }

  lemma RetrievedCallIsReadOnly<W(!new), D(!new), E>(calls: seq<Hooks.Call<W, Retrieved<D>, seq<D>, E>>, w: W, s: Retrieved<D>, k: nat)
    requires k <= |calls|
    ensures AfterRetrieve<W, D>().show(Fold(AfterRetrieve<W, D>(), calls[..k], w, s).state).call == s.call
  {
    StateKeeps(AfterRetrieve<W, D>(), calls[..k], w, s, (t: Retrieved<D>) => t.call == s.call);
  }

  /** The query a hook before a retrieval returns is what the next hook, or the retriever, gets. */
  lemma RetrieveHookIsHeard<W, E>(calls: seq<Hooks.Call<W, RetrieveCall, string, E>>, w: W, call: RetrieveCall, k: nat)
    requires k < |calls| && Succeeds(BeforeRetrieve<W>(), calls, w, call, k)
    ensures var o, out := Fold(BeforeRetrieve<W>(), calls[..k + 1], w, call), OutputOf(BeforeRetrieve<W>(), calls, w, call, k).1.value;
      o.err.None? && BeforeRetrieve<W>().show(o.state) == o.state && o.state.query == out
  {
    HookIsHeard(BeforeRetrieve<W>(), calls, w, call, k);
  }

  /** The documents a hook after a retrieval returns are what the next hook, or the agent, gets. */
  lemma RetrievedHookIsHeard<W, D, E>(calls: seq<Hooks.Call<W, Retrieved<D>, seq<D>, E>>, w: W, s: Retrieved<D>, k: nat)
    requires k < |calls| && Succeeds(AfterRetrieve<W, D>(), calls, w, s, k)
    ensures var o, out := Fold(AfterRetrieve<W, D>(), calls[..k + 1], w, s), OutputOf(AfterRetrieve<W, D>(), calls, w, s, k).1.value;
      o.err.None? && AfterRetrieve<W, D>().show(o.state) == o.state && o.state.documents == out
  {
    HookIsHeard(AfterRetrieve<W, D>(), calls, w, s, k);
  }

  method RunBeforeRetrieve<W(!new), E>(groups: seq<Group<W, RetrieveCall, string, E>>, w: W, call: RetrieveCall) returns (world: W, r: Result<RetrieveCall, E>)
    ensures var o := Fold(BeforeRetrieve<W>(), Flat(groups), w, call); world == o.world && r == match o.err case Some(e) => Failure(e) case None => Success(o.state)
    ensures r.Success? ==> r.value == call.(query := r.value.query)
  {
    var o := Run(BeforeRetrieve<W>(), groups, w, call);
    OnlyQueryChanges(Flat(groups), w, call, |Flat(groups)|);
    assert Flat(groups)[..|Flat(groups)|] == Flat(groups);
    return o.world, Answer(o);
  }

  method RunAfterRetrieve<W, D, E>(groups: seq<Group<W, Retrieved<D>, seq<D>, E>>, w: W, call: RetrieveCall, documents: seq<D>)
      returns (world: W, r: Result<seq<D>, E>)
    ensures var o := Fold(AfterRetrieve<W, D>(), Flat(groups), w, Retrieved(call, documents));
      world == o.world && r == match o.err case Some(e) => Failure(e) case None => Success(o.state.documents)
  {
    var o := Run(AfterRetrieve<W, D>(), groups, w, Retrieved(call, documents));
    r := match o.err case Some(e) => Failure(e) case None => Success(o.state.documents);
    world := o.world;
  }
}
