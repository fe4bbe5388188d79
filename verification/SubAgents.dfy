/**
  The sub-agent graph: validation by a depth-bounded search with a mutable path set, and the
  unguarded recursion over the same heap objects that builds the spec tree for a run.

  `G` is the graph as a value: the registry list of every agent in the closed set `U`. No method
  here changes a registry, so it stays equal to the heap.
*/
module SubAgents {
  import opened Wrappers
  import opened Names

  const DEFAULT_MAX_DEPTH: int := 2

  /**
    An agent as the graph code sees it. An absent registry lists nothing. `before` and `after` are
    the outcomes of resolving the tools that come before and after the sub-agent tools in the
    merged list (native, MCP, A2A; memory, retrievers); None stands for an error.
  */
  class Agent {
    const name: string
    const maxSubAgentDepth: int
    const before: Option<seq<string>>
    const after: Option<seq<string>>
    var registry: seq<Agent?>

    constructor (name: string, maxSubAgentDepth: int, before: Option<seq<string>>, after: Option<seq<string>>, registry: seq<Agent?>)
      ensures this.name == name && this.maxSubAgentDepth == maxSubAgentDepth
      ensures this.before == before && this.after == after && this.registry == registry
    {
      this.name := name;
      this.maxSubAgentDepth := maxSubAgentDepth;
      this.before := before;
      this.after := after;
      this.registry := registry;
    }
  }

  /** The set of agents on the current path, a Go map shared by all levels of the search. */
  class PathSet {
    var members: set<Agent>

    constructor (a: Agent)
      ensures members == {a}
    {
      members := {a};
    }
  }

  type Graph = map<Agent, seq<Agent?>>

  /** `G` holds the registry list of every agent of `U` as it is on the heap. */
  ghost predicate Mirrors(G: Graph, U: set<Agent>)
    reads U
  {
    G.Keys == U && forall a :: a in U ==> G[a] == a.registry
  }

  /** Every listed agent is in the graph. */
  ghost predicate Closed(G: Graph) {
    forall a, i :: a in G && 0 <= i < |G[a]| && G[a][i] != null ==> G[a][i] in G
  }

  // ----- the graph check, said twice

  /** What the search computes: `a` has at most `n` levels below and including it, and no empty entry in them. */
  ghost predicate Fine(G: Graph, a: Agent, n: nat)
    decreases n
  {
    && n > 0 && a in G
    && forall i :: 0 <= i < |G[a]| ==> G[a][i] != null && Fine(G, G[a][i], n - 1)
  }

  ghost predicate IsWalk(G: Graph, older w: seq<Agent>) {
    && w != []
    && (forall k :: 0 <= k < |w| ==> w[k] in G)
    && (forall k :: 0 <= k < |w| - 1 ==> w[k + 1] in G[w[k]])
  }

  function Last(w: seq<Agent>): Agent
    requires w != []
  {
    w[|w| - 1]
  }

  /** What it is for: no walk from `a` visits more than `n` agents, and no agent a walk reaches has an empty entry. */
  ghost predicate ShortWalks(G: Graph, a: Agent, n: nat) {
    forall w :: IsWalk(G, w) && w[0] == a ==> |w| <= n && null !in G[Last(w)]
  }

  lemma WalkCons(G: Graph, a: Agent, w: seq<Agent>)
    requires a in G && IsWalk(G, w) && w[0] in G[a]
    ensures IsWalk(G, [a] + w) && Last([a] + w) == Last(w)
  {
  }

  lemma {:induction false} FineBoundsWalks(G: Graph, w: seq<Agent>, n: nat)
    requires IsWalk(G, w) && Fine(G, w[0], n)
    ensures |w| <= n && null !in G[Last(w)] && Fine(G, Last(w), n - |w| + 1)
    decreases n
  {
    if |w| > 1 {
      var i :| 0 <= i < |G[w[0]]| && G[w[0]][i] == w[1];
      FineBoundsWalks(G, w[1..], n - 1);
    }
  }

  lemma {:induction false} ShortWalksAreFine(G: Graph, a: Agent, n: nat)
    requires Closed(G) && a in G && ShortWalks(G, a, n)
    ensures Fine(G, a, n)
    decreases n
  {
    assert IsWalk(G, [a]);
    forall i | 0 <= i < |G[a]| ensures G[a][i] != null && Fine(G, G[a][i], n - 1) {
      assert G[a][i] in G[a] && null !in G[Last([a])];
      var c: Agent := G[a][i];
      forall w | IsWalk(G, w) && w[0] == c ensures |w| <= n - 1 && null !in G[Last(w)] {
        WalkCons(G, a, w);
        assert ([a] + w)[0] == a;
      }
      ShortWalksAreFine(G, c, n - 1);
    }
  }

  /** The recursive check and the statement about walks agree on every graph, cyclic or not. */
  lemma FineIffShortWalks(G: Graph, a: Agent, n: nat)
    requires Closed(G) && a in G
    ensures Fine(G, a, n) <==> ShortWalks(G, a, n)
  {
    if Fine(G, a, n) {
      forall w | IsWalk(G, w) && w[0] == a ensures |w| <= n && null !in G[Last(w)] {
        FineBoundsWalks(G, w, n);
      }
    } else if ShortWalks(G, a, n) {
      ShortWalksAreFine(G, a, n);
    }
  }

  /** An agent on a cycle is fine at no depth. */
  lemma {:induction false} CyclesAreNeverFine(G: Graph, w: seq<Agent>, n: nat)
    requires IsWalk(G, w) && |w| > 1 && Last(w) == w[0]
    ensures !Fine(G, w[0], n)
    decreases n
  {
    if Fine(G, w[0], n) {
      FineBoundsWalks(G, w, n);
      CyclesAreNeverFine(G, w, n - |w| + 1);
    }
  }

  // ----- validation

  datatype GraphError = DepthExceeded(at: Agent) | NilEntry(at: Agent) | Cycle(parent: Agent, child: Agent)

  /** The graph really has what the error reports, on a walk from `root`. */
  ghost predicate Justified(G: Graph, root: Agent, e: GraphError, maxDepth: nat) {
    match e
    case DepthExceeded(at) => exists w :: IsWalk(G, w) && w[0] == root && Last(w) == at && |w| == maxDepth + 1
    case NilEntry(at) => exists w :: IsWalk(G, w) && w[0] == root && Last(w) == at && null in G[at]
    case Cycle(parent, child) => exists w :: IsWalk(G, w) && w[0] == root && Last(w) == parent && child in w && child in G[parent]
  }

  /** Closing the current walk with an edge back into it makes a cycle through its last agent. */
  lemma BackEdgeIsNotFine(G: Graph, stack: seq<Agent>, child: Agent, n: nat)
    requires IsWalk(G, stack) && child in stack && child in G[Last(stack)]
    ensures !Fine(G, Last(stack), n)
  {
    var k :| 0 <= k < |stack| && stack[k] == child;
    var w := [Last(stack)] + stack[k..];
    assert IsWalk(G, w);
    CyclesAreNeverFine(G, w, n);
  }

  /** The depth-first search. `stack` is the chain of calls: the walk from the root the search started at. */
  method DfsSubAgentDepth(a: Agent, path: PathSet, depth: nat, maxDepth: nat, ghost stack: seq<Agent>, ghost U: set<Agent>, ghost G: Graph)
      returns (err: Option<GraphError>)
    requires Mirrors(G, U) && Closed(G)
    requires IsWalk(G, stack) && Last(stack) == a && |stack| == depth <= maxDepth + 1
    requires path.members == set x | x in stack
    modifies path
    ensures err.None? <==> Fine(G, a, maxDepth + 1 - depth)
    ensures err.None? ==> path.members == old(path.members)
    ensures err.Some? ==> Justified(G, stack[0], err.value, maxDepth)
    decreases maxDepth + 1 - depth
  {
    if depth > maxDepth {
      return Some(DepthExceeded(a));
    }
    var children := a.registry;
    for i := 0 to |children|
      invariant forall j :: 0 <= j < i ==> children[j] != null && Fine(G, children[j], maxDepth - depth)
      invariant path.members == old(path.members)
    {
      if children[i] == null {
        return Some(NilEntry(a));
      }
      var child: Agent := children[i];
      if child in path.members {
        BackEdgeIsNotFine(G, stack, child, maxDepth + 1 - depth);
        return Some(Cycle(a, child));
      }
      path.members := path.members + {child};
      assert IsWalk(G, stack + [child]);
      err := DfsSubAgentDepth(child, path, depth + 1, maxDepth, stack + [child], U, G);
      if err.Some? {
        return;
      }
      path.members := path.members - {child};
    }
    return None;
  }

  datatype ValidateError =
    | NilSubAgent
    | DuplicateSubAgent(agent: Agent)
    | NamedLikeRoot(agent: Agent)
    | InvalidName(agent: Agent)
    | DuplicateToolName(toolName: string)
    | BadGraph(why: GraphError)

  /** The configured limit, or 2 for a field that is not positive. */
  function Depth(root: Agent): (d: nat)
    ensures root.maxSubAgentDepth > 0 ==> d == root.maxSubAgentDepth
    ensures root.maxSubAgentDepth <= 0 ==> d == 2
  {
    if root.maxSubAgentDepth <= 0 then DEFAULT_MAX_DEPTH else root.maxSubAgentDepth
  }

  /** A child that can be delegated to: present, named apart from the root, with a delegation tool name. */
  predicate ProperChild(root: Agent, sub: Agent?) {
    sub != null && sub.name != root.name && SubAgentToolName(sub.name).Some?
  }

  function ToolNameOf(sub: Agent?): Option<string> {
    if sub == null then None else SubAgentToolName(sub.name)
  }

  /** All direct children are proper and their delegation tool names are distinct. */
  ghost predicate ProperChildren(root: Agent, subs: seq<Agent?>) {
    && (forall i :: 0 <= i < |subs| ==> ProperChild(root, subs[i]))
    && (forall i, j :: 0 <= i < j < |subs| ==> ToolNameOf(subs[i]) != ToolNameOf(subs[j]))
  }

  ghost predicate Accepts(G: Graph, root: Agent) {
    && root in G && ProperChildren(root, G[root])
    && forall i :: 0 <= i < |G[root]| ==> ShortWalks(G, G[root][i], if root.maxSubAgentDepth > 0 then root.maxSubAgentDepth else 2)
  }

  predicate HasLetterOrDigit(name: string) {
    exists k :: 0 <= k < |name| && ('a' <= name[k] <= 'z' || 'A' <= name[k] <= 'Z' || '0' <= name[k] <= '9')
  }

  /**
    Acceptance said outright, for every configured depth: each child is present, is not named like
    the root, has a letter or digit in its name and shares its alphanumeric runs with no other child,
    and no walk from a child visits more agents than configured, two if nothing is, or reaches an
    empty entry.
  */
  lemma AcceptsMeans(G: Graph, root: Agent)
    requires root in G
    ensures Accepts(G, root) <==>
      var subs, limit := G[root], if root.maxSubAgentDepth > 0 then root.maxSubAgentDepth else 2;
      && (forall i :: 0 <= i < |subs| ==> subs[i] != null && subs[i].name != root.name && HasLetterOrDigit(subs[i].name))
      && (forall i, j :: 0 <= i < j < |subs| && subs[i] != null && subs[j] != null ==> Runs(subs[i].name) != Runs(subs[j].name))
      && (forall w :: IsWalk(G, w) && w[0] in subs ==> |w| <= limit && null !in G[Last(w)])
  {
    var subs, limit := G[root], if root.maxSubAgentDepth > 0 then root.maxSubAgentDepth else 2;
    ProperChildrenMeans(root, subs);
    if Accepts(G, root) {
      forall w | IsWalk(G, w) && w[0] in subs ensures |w| <= limit && null !in G[Last(w)] {
        var i :| 0 <= i < |subs| && subs[i] == w[0];
        assert ShortWalks(G, subs[i], limit);
      }
    }
  }

  lemma ProperChildrenMeans(root: Agent, subs: seq<Agent?>)
    ensures ProperChildren(root, subs) <==>
      && (forall i :: 0 <= i < |subs| ==> subs[i] != null && subs[i].name != root.name && HasLetterOrDigit(subs[i].name))
      && (forall i, j :: 0 <= i < j < |subs| && subs[i] != null && subs[j] != null ==> Runs(subs[i].name) != Runs(subs[j].name))
  {
    forall i | 0 <= i < |subs| && subs[i] != null ensures SubAgentToolName(subs[i].name).Some? <==> HasLetterOrDigit(subs[i].name) {
      ToolNameIffAlnum(subs[i].name);
    }
    forall i, j | 0 <= i < j < |subs| && subs[i] != null && subs[j] != null
      ensures ToolNameOf(subs[i]) == ToolNameOf(subs[j]) <==> Runs(subs[i].name) == Runs(subs[j].name)
    {
      ToolNamesAgreeIff(subs[i].name, subs[j].name);
    }
    if ProperChildren(root, subs) {
      forall i | 0 <= i < |subs| ensures subs[i] != null && subs[i].name != root.name && HasLetterOrDigit(subs[i].name) {
        assert ProperChild(root, subs[i]);
      }
    }
  }

  /** One turn of the checking loop: the new tool name, or why the child is refused. */
  method CheckChild(root: Agent, sub: Agent?, seen: set<Agent>, seenNames: set<string>) returns (r: Result<string, ValidateError>)
    ensures r.Success? <==> ProperChild(root, sub) && sub !in seen && ToolNameOf(sub).value !in seenNames
    ensures r.Success? ==> ToolNameOf(sub) == Some(r.value)
    ensures r.Failure? ==> !r.error.BadGraph?
  {
    if sub == null {
      return Failure(NilSubAgent);
    }
    if sub in seen {
      return Failure(DuplicateSubAgent(sub));
    }
    if sub.name == root.name {
      return Failure(NamedLikeRoot(sub));
    }
    var toolName := SubAgentToolName(sub.name);
    if toolName.None? {
      return Failure(InvalidName(sub));
    }
    if toolName.value in seenNames {
      return Failure(DuplicateToolName(toolName.value));
    }
    return Success(toolName.value);
  }

  lemma ProperSnoc(root: Agent, subs: seq<Agent?>, x: Agent?)
    ensures ProperChildren(root, subs + [x]) <==>
      ProperChildren(root, subs) && ProperChild(root, x) && forall j :: 0 <= j < |subs| ==> ToolNameOf(subs[j]) != ToolNameOf(x)
  {
    var all := subs + [x];
    if ProperChildren(root, all) {
      assert ProperChild(root, all[|subs|]);
      forall j | 0 <= j < |subs| ensures ProperChild(root, subs[j]) && ToolNameOf(subs[j]) != ToolNameOf(x) {
        assert ProperChild(root, all[j]) && ToolNameOf(all[j]) != ToolNameOf(all[|subs|]);
      }
      forall j, k | 0 <= j < k < |subs| ensures ToolNameOf(subs[j]) != ToolNameOf(subs[k]) {
        assert ToolNameOf(all[j]) != ToolNameOf(all[k]);
      }
    }
  }

  /** The seen maps of the checking loop after `i` children; `origin` remembers which child brought a tool name. */
  ghost predicate Seen(agents: seq<Agent?>, i: nat, seen: set<Agent>, seenNames: set<string>, origin: map<string, nat>) {
    && i <= |agents|
    && (forall a :: a in seen ==> ToolNameOf(a).Some? && ToolNameOf(a).value in seenNames)
    && (forall n :: n in seenNames ==> n in origin && origin[n] < i && ToolNameOf(agents[origin[n]]) == Some(n))
    && (forall j :: 0 <= j < i ==> ToolNameOf(agents[j]).Some? && ToolNameOf(agents[j]).value in seenNames)
  }

  lemma OneMoreSeen(root: Agent, agents: seq<Agent?>, i: nat, seen: set<Agent>, seenNames: set<string>, origin: map<string, nat>, name: string)
    requires i < |agents| && ProperChildren(root, agents[..i]) && Seen(agents, i, seen, seenNames, origin)
    requires ProperChild(root, agents[i]) && ToolNameOf(agents[i]) == Some(name) && name !in seenNames
    ensures ProperChildren(root, agents[..i + 1])
    ensures agents[i] != null && Seen(agents, i + 1, seen + {agents[i]}, seenNames + {name}, origin[name := i])
  {
    ProperSnoc(root, agents[..i], agents[i]);
    assert agents[..i + 1] == agents[..i] + [agents[i]];
  }

  method CheckChildren(root: Agent, agents: seq<Agent?>) returns (err: Option<ValidateError>)
    ensures err.None? <==> ProperChildren(root, agents)
    ensures err.Some? ==> !err.value.BadGraph?
  {
    var seen: set<Agent> := {};
    var seenNames: set<string> := {};
    ghost var origin: map<string, nat> := map[];
    for i := 0 to |agents|
      invariant ProperChildren(root, agents[..i]) && Seen(agents, i, seen, seenNames, origin)
    {
      var r := CheckChild(root, agents[i], seen, seenNames);
      if r.Failure? {
        RefusedMeansImproper(root, agents, i, seen, seenNames, origin);
        return Some(r.error);
      }
      OneMoreSeen(root, agents, i, seen, seenNames, origin, r.value);
      seen := seen + {agents[i]};
      seenNames := seenNames + {r.value};
      origin := origin[r.value := i];
    }
    assert agents[..|agents|] == agents;
    return None;
  }

  lemma RefusedMeansImproper(root: Agent, agents: seq<Agent?>, i: nat, seen: set<Agent>, seenNames: set<string>, origin: map<string, nat>)
    requires i < |agents| && Seen(agents, i, seen, seenNames, origin)
    requires !(ProperChild(root, agents[i]) && agents[i] !in seen && ToolNameOf(agents[i]).value !in seenNames)
    ensures !ProperChildren(root, agents)
  {
    if ProperChild(root, agents[i]) {
      var j := origin[ToolNameOf(agents[i]).value];
      assert ToolNameOf(agents[j]) == ToolNameOf(agents[i]);
    }
  }

  lemma FineChildrenAreAccepted(G: Graph, root: Agent)
    requires Closed(G) && root in G && ProperChildren(root, G[root])
    ensures Accepts(G, root) <==> forall i :: 0 <= i < |G[root]| ==> G[root][i] != null && Fine(G, G[root][i], Depth(root))
  {
    forall i | 0 <= i < |G[root]|
      ensures G[root][i] != null && (Fine(G, G[root][i], Depth(root)) <==> ShortWalks(G, G[root][i], Depth(root)))
    {
      assert ProperChild(root, G[root][i]);
      FineIffShortWalks(G, G[root][i], Depth(root));
    }
  }

  /** The searches from the children, each with a path set of its own. */
  method SearchFromChildren(agents: seq<Agent?>, limit: nat, ghost U: set<Agent>, ghost G: Graph) returns (err: Option<GraphError>)
    requires Mirrors(G, U) && Closed(G) && forall i :: 0 <= i < |agents| ==> agents[i] != null && agents[i] in G
    ensures err.None? <==> forall i :: 0 <= i < |agents| ==> agents[i] != null && Fine(G, agents[i], limit)
    ensures err.Some? ==> exists s: Agent :: s in agents && Justified(G, s, err.value, limit)
  {
    for i := 0 to |agents|
      invariant forall j :: 0 <= j < i ==> agents[j] != null && Fine(G, agents[j], limit)
    {
      var s: Agent := agents[i];
      var path := new PathSet(s);
      assert IsWalk(G, [s]);
      var bad := DfsSubAgentDepth(s, path, 1, limit, [s], U, G);
      if bad.Some? {
        assert s in agents && Justified(G, s, bad.value, limit);
        return bad;
      }
    }
    return None;
  }

  /**
    Validation accepts a registry graph exactly when its direct children are proper, no walk from
    one of them visits more than the depth limit of agents, and no agent reached has an empty
    entry; so every cycle is rejected.
  */
  method ValidateSubAgentRegistry(root: Agent, ghost U: set<Agent>, ghost G: Graph) returns (err: Option<ValidateError>)
    requires Mirrors(G, U) && Closed(G) && root in U
    ensures err.None? <==> Accepts(G, root)
    ensures root.maxSubAgentDepth > 0 ==>
      (err.None? <==> ProperChildren(root, G[root]) && forall i :: 0 <= i < |G[root]| ==> ShortWalks(G, G[root][i], root.maxSubAgentDepth))
    ensures root.maxSubAgentDepth <= 0 ==>
      (err.None? <==> ProperChildren(root, G[root]) && forall i :: 0 <= i < |G[root]| ==> ShortWalks(G, G[root][i], 2))
    ensures err.Some? && err.value.BadGraph? ==>
      exists s: Agent :: s in G[root] && Justified(G, s, err.value.why, if root.maxSubAgentDepth > 0 then root.maxSubAgentDepth else 2)
  {
    var agents := root.registry;
    err := CheckChildren(root, agents);
    if err.Some? {
      return;
    }
    assert forall i :: 0 <= i < |agents| ==> ProperChild(root, agents[i]);
    var bad := SearchFromChildren(agents, Depth(root), U, G);
    FineChildrenAreAccepted(G, root);
    return if bad.Some? then Some(BadGraph(bad.value)) else None;
  }

  // ----- the merged tool list

  predicate NoRepeats(names: seq<string>) {
    forall i, j :: 0 <= i < j < |names| ==> names[i] != names[j]
  }

  /** The delegation tools of the listed sub-agents; those without a valid name have none. */
  function SubAgentTools(subs: seq<Agent?>): seq<string> {
    if subs == [] then []
    else SubAgentTools(subs[..|subs| - 1]) + match ToolNameOf(subs[|subs| - 1]) case Some(n) => [n] case None => []
  }

  function OrEmpty(names: Option<seq<string>>): seq<string> {
    match names case Some(q) => q case None => []
  }

  function MergedTools(a: Agent, subs: seq<Agent?>): seq<string> {
    OrEmpty(a.before) + SubAgentTools(subs) + OrEmpty(a.after)
  }

  /** When an agent's tools resolve: no source fails, no name repeats, and its sub-agent graph is accepted. */
  ghost predicate ToolsResolve(G: Graph, a: Agent) {
    && a in G && a.before.Some? && a.after.Some?
    && NoRepeats(MergedTools(a, G[a])) && Accepts(G, a)
  }

  method ValidateToolNames(tools: seq<string>) returns (ok: bool)
    ensures ok <==> forall i, j :: 0 <= i < j < |tools| ==> tools[i] != tools[j]
  {
    var seen: map<string, nat> := map[];
    for i := 0 to |tools|
      invariant NoRepeats(tools[..i])
      invariant forall n :: n in seen ==> seen[n] < i && tools[seen[n]] == n
      invariant forall j :: 0 <= j < i ==> tools[j] in seen
    {
      if tools[i] in seen {
        return false;
      }
      seen := seen[tools[i] := i];
      assert tools[..i + 1] == tools[..i] + [tools[i]];
    }
    assert tools[..|tools|] == tools;
    return true;
  }

  method ResolveSubAgentTools(a: Agent) returns (out: seq<string>)
    ensures out == SubAgentTools(a.registry)
  {
    out := [];
    var agents := a.registry;
    for i := 0 to |agents|
      invariant out == SubAgentTools(agents[..i])
    {
      assert agents[..i + 1][..i] == agents[..i];
      var n := ToolNameOf(agents[i]);
      if n.Some? {
        out := out + [n.value];
      }
    }
    assert agents[..|agents|] == agents;
  }

  method ResolveTools(a: Agent, ghost U: set<Agent>, ghost G: Graph) returns (r: Option<seq<string>>)
    requires Mirrors(G, U) && Closed(G) && a in U
    ensures r.Some? <==> ToolsResolve(G, a)
    ensures r.Some? ==> a.before.Some? && a.after.Some? && r.value == a.before.value + SubAgentTools(G[a]) + a.after.value
    ensures r.Some? ==> r.value == MergedTools(a, G[a])
  {
    if a.before.None? {
      return None;
    }
    var tools := a.before.value;
    var subs := ResolveSubAgentTools(a);
    tools := tools + subs;
    if a.after.None? {
      return None;
    }
    tools := tools + a.after.value;
    var unique := ValidateToolNames(tools);
    if !unique {
      return None;
    }
    var err := ValidateSubAgentRegistry(a, U, G);
    return if err.Some? then None else Some(tools);
  }

  /** An accepted agent has one delegation tool per sub-agent, in order, named by the sub-agent's alphanumeric runs. */
  lemma AcceptedHaveTools(G: Graph, a: Agent, i: nat)
    requires Accepts(G, a) && i < |G[a]|
    ensures |SubAgentTools(G[a])| == |G[a]| && G[a][i] != null
    ensures SubAgentTools(G[a])[i] == "subagent_" + JoinRuns(Runs(G[a][i].name))
  {
    assert forall k :: 0 <= k < |G[a]| ==> ProperChild(a, G[a][k]);
    ToolsOfNamed(G[a], i);
    ToolNameIsJoinedRuns(G[a][i].name);
  }

  lemma {:induction false} ToolsOfNamed(subs: seq<Agent?>, i: nat)
    requires i < |subs| && forall k :: 0 <= k < |subs| ==> ToolNameOf(subs[k]).Some?
    ensures |SubAgentTools(subs)| == |subs| && SubAgentTools(subs)[i] == ToolNameOf(subs[i]).value
  {
    if |subs| > 1 {
      ToolsOfNamed(subs[..|subs| - 1], if i < |subs| - 1 then i else 0);
    }
  }

  // ----- the spec tree

  datatype Spec = Spec(name: string, toolName: string, tools: seq<string>, children: seq<Spec>)

  /** A listed agent the tree builder can delegate to: not skipped, and with at most `n` levels from it down. */
  ghost predicate Delegable(G: Graph, c: Agent?, n: nat) {
    c != null && ToolNameOf(c).Some? && Fine(G, c, n)
  }

  ghost predicate DelegableChildren(G: Graph, a: Agent, n: nat) {
    a in G && forall i :: 0 <= i < |G[a]| ==> Delegable(G, G[a][i], n)
  }

  lemma AcceptedChildrenAreDelegable(G: Graph, a: Agent)
    requires Closed(G) && Accepts(G, a)
    ensures DelegableChildren(G, a, Depth(a))
  {
    forall i | 0 <= i < |G[a]| ensures Delegable(G, G[a][i], Depth(a)) {
      assert ProperChild(a, G[a][i]);
      FineIffShortWalks(G, G[a][i], Depth(a));
    }
  }

  /** Below an agent that was validated itself, the levels left are those of the search that reached it. */
  lemma ValidatedChildrenAreDelegable(G: Graph, c: Agent, n: nat)
    requires Accepts(G, c) && Fine(G, c, n)
    ensures n > 0 && DelegableChildren(G, c, n - 1)
  {
    forall i | 0 <= i < |G[c]| ensures Delegable(G, G[c][i], n - 1) {
      assert ProperChild(c, G[c][i]);
    }
  }

  /** The child is present, its tools resolve, and so do those of everything below it, within `n` levels. */
  ghost predicate ChildResolves(G: Graph, c: Agent?, n: nat)
    decreases n, 0
  {
    n > 0 && c != null && ToolsResolve(G, c) && AllResolve(G, c, n - 1)
  }

  /** Every agent below `a` is present and resolves its tools, and there are at most `n` levels of them. */
  ghost predicate AllResolve(G: Graph, a: Agent, n: nat)
    decreases n, 1
  {
    a in G && forall i :: 0 <= i < |G[a]| ==> ChildResolves(G, G[a][i], n)
  }

  ghost predicate ResolvedUpTo(G: Graph, a: Agent, i: nat, n: nat) {
    a in G && i <= |G[a]| && forall j :: 0 <= j < i ==> ChildResolves(G, G[a][j], n)
  }

  lemma ResolvedOneMore(G: Graph, a: Agent, i: nat, n: nat)
    requires ResolvedUpTo(G, a, i, n) && i < |G[a]|
    ensures ChildResolves(G, G[a][i], n) ==> ResolvedUpTo(G, a, i + 1, n)
    ensures !ChildResolves(G, G[a][i], n) ==> !AllResolve(G, a, n)
  {
  }

  lemma ResolvedToTheEnd(G: Graph, a: Agent, n: nat)
    requires a in G && ResolvedUpTo(G, a, |G[a]|, n)
    ensures AllResolve(G, a, n)
  {
  }

  function OrBlank(name: Option<string>): string {
    match name case Some(n) => n case None => ""
  }

  /** The spec of one agent, whose children have specs `children`. */
  function SpecOf(c: Agent, tools: seq<string>, children: seq<Spec>): Spec {
    Spec(c.name, OrBlank(ToolNameOf(c)), tools, children)
  }

  const NO_SPEC := Spec("", "", [], [])

  /** The spec of one listed agent, with everything up to `n - 1` levels below it. */
  ghost function UnfoldChild(G: Graph, c: Agent?, n: nat): Spec
    decreases n, 0
  {
    if n == 0 || c == null || c !in G then NO_SPEC else SpecOf(c, MergedTools(c, G[c]), UnfoldTo(G, c, n - 1, |G[c]|))
  }

  ghost function UnfoldTo(G: Graph, a: Agent, n: nat, k: nat): (r: seq<Spec>)
    requires a in G && k <= |G[a]|
    ensures |r| == k
    decreases n, 1, k
  {
    if k == 0 then [] else UnfoldTo(G, a, n, k - 1) + [UnfoldChild(G, G[a][k - 1], n)]
  }

  /** The graph below `a` unfolded `n` levels into a tree: one spec per listed agent, in order, none left out. */
  ghost function Unfold(G: Graph, a: Agent, n: nat): (r: seq<Spec>)
    requires a in G
    ensures |r| == |G[a]|
  {
    UnfoldTo(G, a, n, |G[a]|)
  }

  lemma {:induction false} UnfoldToAt(G: Graph, a: Agent, n: nat, k: nat, i: nat)
    requires a in G && i < k <= |G[a]|
    ensures UnfoldTo(G, a, n, k)[i] == UnfoldChild(G, G[a][i], n)
    decreases k
  {
    if i < k - 1 {
      UnfoldToAt(G, a, n, k - 1, i);
    }
  }

  /** One listed entry: skipped (an empty entry or a name without a tool name), resolved, or the error that ends the call. */
  datatype Entry = Skipped | Resolved(spec: Spec) | Failed

  method ResolveEntry(sub: Agent?, ghost n: nat, ghost U: set<Agent>, ghost G: Graph) returns (r: Entry)
    requires Mirrors(G, U) && Closed(G) && (sub != null ==> sub in U && Fine(G, sub, n))
    ensures r.Skipped? <==> sub == null || SubAgentToolName(sub.name).None?
    ensures !r.Skipped? ==> (r.Resolved? <==> ChildResolves(G, sub, n))
    ensures r.Resolved? ==> r.spec == UnfoldChild(G, sub, n)
    decreases n, 0
  {
    if sub == null {
      return Skipped;
    }
    var toolName := SubAgentToolName(sub.name);
    if toolName.None? {
      return Skipped;
    }
    var tools := ResolveTools(sub, U, G);
    if tools.None? {
      return Failed;
    }
    ValidatedChildrenAreDelegable(G, sub, n);
    var children := ResolveSubAgentSpecs(sub, n - 1, U, G);
    if children.None? {
      return Failed;
    }
    return Resolved(Spec(sub.name, toolName.value, tools.value, children.value));
  }

  /**
    The recursion has no depth guard of its own. It ends because `n`, the number of levels below an
    accepted agent, goes down; and because each child's own tools were resolved first, its check has
    run and no entry is ever skipped.
  */
  method ResolveSubAgentSpecs(a: Agent, ghost n: nat, ghost U: set<Agent>, ghost G: Graph) returns (r: Option<seq<Spec>>)
    requires Mirrors(G, U) && Closed(G) && a in U && DelegableChildren(G, a, n)
    ensures r.Some? <==> AllResolve(G, a, n)
    ensures r.Some? ==> r.value == Unfold(G, a, n)
    decreases n, 1
  {
    var subs := a.registry;
    var out: seq<Spec> := [];
    for i := 0 to |subs|
      invariant ResolvedUpTo(G, a, i, n)
      invariant out == UnfoldTo(G, a, n, i)
    {
      assert Delegable(G, subs[i], n);
      var entry := ResolveEntry(subs[i], n, U, G);
      ResolvedOneMore(G, a, i, n);
      match entry
      case Skipped => assert false;
      case Failed => return None;
      case Resolved(spec) => out := out + [spec];
    }
    ResolvedToTheEnd(G, a, n);
    return Some(out);
  }

  /** The pre-flight part of Run and Stream: resolve the tools, then build the spec tree. */
  method PrepareRun(a: Agent, ghost U: set<Agent>, ghost G: Graph) returns (r: Option<(seq<string>, seq<Spec>)>)
    requires Mirrors(G, U) && Closed(G) && a in U
    ensures r.Some? <==> ToolsResolve(G, a) && AllResolve(G, a, Depth(a))
    ensures r.Some? ==> r.value == (MergedTools(a, G[a]), Unfold(G, a, Depth(a)))
  {
    var tools := ResolveTools(a, U, G);
    if tools.None? {
      return None;
    }
    AcceptedChildrenAreDelegable(G, a);
    var specs := ResolveSubAgentSpecs(a, Depth(a), U, G);
    return if specs.None? then None else Some((tools.value, specs.value));
  }

  /** Everything below resolves exactly when every agent a walk from a child reaches resolves its own tools. */
  lemma {:induction false} AllResolveIffReachedResolve(G: Graph, a: Agent, n: nat)
    requires Closed(G) && a in G && DelegableChildren(G, a, n)
    ensures AllResolve(G, a, n) <==> forall w :: IsWalk(G, w) && w[0] in G[a] ==> ToolsResolve(G, Last(w))
    decreases n
  {
    if AllResolve(G, a, n) {
      forall w | IsWalk(G, w) && w[0] in G[a] ensures ToolsResolve(G, Last(w)) {
        WalkResolves(G, a, n, w);
      }
    }
    if forall w :: IsWalk(G, w) && w[0] in G[a] ==> ToolsResolve(G, Last(w)) {
      forall i | 0 <= i < |G[a]| ensures ChildResolves(G, G[a][i], n) {
        ReachedMeansResolved(G, a, n, i);
      }
    }
  }

  lemma WalkTail(G: Graph, w: seq<Agent>)
    requires IsWalk(G, w) && |w| > 1
    ensures IsWalk(G, w[1..]) && w[1..][0] == w[1] && w[1] in G[w[0]] && Last(w[1..]) == Last(w)
  {
  }

  lemma ResolvedChild(G: Graph, a: Agent, n: nat, c: Agent)
    requires a in G && AllResolve(G, a, n) && c in G[a]
    ensures n > 0 && c in G && ToolsResolve(G, c) && AllResolve(G, c, n - 1)
  {
    var i :| 0 <= i < |G[a]| && G[a][i] == c;
    assert ChildResolves(G, G[a][i], n);
  }

  lemma {:induction false} WalkResolves(G: Graph, a: Agent, n: nat, w: seq<Agent>)
    requires a in G && AllResolve(G, a, n) && IsWalk(G, w) && w[0] in G[a]
    ensures ToolsResolve(G, Last(w))
    decreases n
  {
    ResolvedChild(G, a, n, w[0]);
    if |w| > 1 {
      WalkTail(G, w);
      WalkResolves(G, w[0], n - 1, w[1..]);
    }
  }

  lemma {:induction false} ReachedMeansResolved(G: Graph, a: Agent, n: nat, i: nat)
    requires Closed(G) && a in G && DelegableChildren(G, a, n) && i < |G[a]|
    requires forall w :: IsWalk(G, w) && w[0] in G[a] ==> ToolsResolve(G, Last(w))
    ensures ChildResolves(G, G[a][i], n)
    decreases n, 0
  {
    assert Delegable(G, G[a][i], n);
    var c: Agent := G[a][i];
    assert IsWalk(G, [c]) && [c][0] in G[a] && Last([c]) == c;
    ValidatedChildrenAreDelegable(G, c, n);
    forall w | IsWalk(G, w) && w[0] in G[c] ensures ToolsResolve(G, Last(w)) {
      WalkCons(G, c, w);
      assert ([c] + w)[0] in G[a];
    }
    forall j | 0 <= j < |G[c]| ensures ChildResolves(G, G[c][j], n - 1) {
      ReachedMeansResolved(G, c, n - 1, j);
    }
  }

  lemma WalksFromRoot(G: Graph, a: Agent)
    requires a in G && ToolsResolve(G, a)
    ensures (forall w :: IsWalk(G, w) && w[0] == a ==> ToolsResolve(G, Last(w))) <==> forall w :: IsWalk(G, w) && w[0] in G[a] ==> ToolsResolve(G, Last(w))
  {
    if forall w :: IsWalk(G, w) && w[0] == a ==> ToolsResolve(G, Last(w)) {
      forall w | IsWalk(G, w) && w[0] in G[a] ensures ToolsResolve(G, Last(w)) {
        WalkCons(G, a, w);
        assert ([a] + w)[0] == a;
      }
    }
    if forall w :: IsWalk(G, w) && w[0] in G[a] ==> ToolsResolve(G, Last(w)) {
      forall w | IsWalk(G, w) && w[0] == a ensures ToolsResolve(G, Last(w)) {
        if |w| > 1 {
          WalkTail(G, w);
        }
      }
    }
  }

  /**
    So the pre-flight of a run succeeds exactly when the agent and every agent a walk from it reaches
    resolve their own tools and have an accepted registry.
  */
  lemma PreparesIffReachedResolve(G: Graph, a: Agent)
    requires Closed(G) && a in G
    ensures ToolsResolve(G, a) && AllResolve(G, a, Depth(a)) <==> forall w :: IsWalk(G, w) && w[0] == a ==> ToolsResolve(G, Last(w))
  {
    if ToolsResolve(G, a) {
      AcceptedChildrenAreDelegable(G, a);
      AllResolveIffReachedResolve(G, a, Depth(a));
      WalksFromRoot(G, a);
    } else {
      assert IsWalk(G, [a]) && Last([a]) == a;
    }
  }

  // ----- what the tree is

  /** The spec at the end of a path of child positions. */
  function Branch(specs: seq<Spec>, path: seq<nat>): Option<Spec>
    requires path != []
  {
    if path[0] >= |specs| then None
    else if |path| == 1 then Some(specs[path[0]])
    else Branch(specs[path[0]].children, path[1..])
  }

  /** The agent at the end of the same path through the registries. */
  ghost function AgentAt(G: Graph, a: Agent, path: seq<nat>): Option<Agent> {
    if path == [] then Some(a)
    else if a !in G || path[0] >= |G[a]| || G[a][path[0]] == null then None
    else AgentAt(G, G[a][path[0]], path[1..])
  }

  /**
    The tree is the exact unfolding of the graph: following child positions through the tree and
    through the registries succeeds together, ends at the same agent with its tool name and tools,
    and never goes deeper than `n`.
  */
  lemma {:induction false} TreeUnfoldsGraph(G: Graph, a: Agent, n: nat, path: seq<nat>)
    requires Closed(G) && AllResolve(G, a, n) && path != []
    ensures var spec, agent := Branch(Unfold(G, a, n), path), AgentAt(G, a, path);
      && (spec.Some? <==> agent.Some?)
      && (agent.Some? ==> |path| <= n && Describes(G, spec.value, agent.value))
    decreases n
  {
    if path[0] < |G[a]| {
      var c: Agent := G[a][path[0]];
      ResolvedIsDescribed(G, a, n, path[0]);
      if |path| > 1 {
        TreeUnfoldsGraph(G, c, n - 1, path[1..]);
      } else {
        assert AgentAt(G, c, path[1..]) == Some(c);
      }
    }
  }

  /** The spec carries the agent's name, tool name and tools, and one child per registered sub-agent. */
  ghost predicate Describes(G: Graph, spec: Spec, agent: Agent) {
    && agent in G && spec.name == agent.name && spec.toolName == OrBlank(ToolNameOf(agent))
    && spec.tools == MergedTools(agent, G[agent]) && |spec.children| == |G[agent]|
  }

  lemma ResolvedIsDescribed(G: Graph, a: Agent, n: nat, i: nat)
    requires AllResolve(G, a, n) && i < |G[a]|
    ensures n > 0 && G[a][i] != null && AllResolve(G, G[a][i], n - 1) && Describes(G, Unfold(G, a, n)[i], G[a][i])
    ensures Unfold(G, a, n)[i].children == Unfold(G, G[a][i], n - 1)
  {
    assert ChildResolves(G, G[a][i], n);
    UnfoldToAt(G, a, n, |G[a]|, i);
  }

  /** No two siblings share a tool name, at any level. */
  ghost predicate DistinctSiblings(specs: seq<Spec>) {
    && (forall i, j :: 0 <= i < j < |specs| ==> specs[i].toolName != specs[j].toolName)
    && (forall i :: 0 <= i < |specs| ==> DistinctSiblings(specs[i].children))
  }

  lemma SiblingsNamed(G: Graph, a: Agent, n: nat, i: nat)
    requires AllResolve(G, a, n) && ProperChildren(a, G[a]) && i < |G[a]|
    ensures n > 0 && ToolNameOf(G[a][i]) == Some(Unfold(G, a, n)[i].toolName)
    ensures G[a][i] != null && AllResolve(G, G[a][i], n - 1) && ProperChildren(G[a][i], G[G[a][i]])
    ensures Unfold(G, a, n)[i].children == Unfold(G, G[a][i], n - 1)
  {
    ResolvedIsDescribed(G, a, n, i);
    assert ProperChild(a, G[a][i]) && ChildResolves(G, G[a][i], n);
  }

  lemma {:induction false} TreeHasDistinctSiblings(G: Graph, a: Agent, n: nat)
    requires AllResolve(G, a, n) && ProperChildren(a, G[a])
    ensures DistinctSiblings(Unfold(G, a, n))
    decreases n
  {
    var specs := Unfold(G, a, n);
    forall i | 0 <= i < |specs| ensures DistinctSiblings(specs[i].children) {
      SiblingsNamed(G, a, n, i);
      TreeHasDistinctSiblings(G, G[a][i], n - 1);
    }
    forall i, j | 0 <= i < j < |specs| ensures specs[i].toolName != specs[j].toolName {
      SiblingsNamed(G, a, n, i);
      SiblingsNamed(G, a, n, j);
    }
  }
}
