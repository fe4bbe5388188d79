/** Tool-approval policies: how an allowlist is built, and what its fingerprint tells apart. */
module Policies {
  import opened Wrappers
  import opened StringOrder
  import Names

  /** A custom policy shows only its type name. */
  datatype Policy = NoPolicy | RequireAll | Auto | Allowlist(allowed: set<string>) | Custom(typeName: string)

  /** Whether a tool needs approval; a missing or custom policy says nothing here. */
  predicate RequiresApproval(p: Policy, tool: string)
    requires p.RequireAll? || p.Auto? || p.Allowlist?
  {
    match p
    case RequireAll => true
    case Auto => false
    case Allowlist(allowed) => tool !in allowed
  }

  function JoinCommas(names: seq<string>): string {
    if names == [] then "" else if |names| == 1 then names[0] else names[0] + "," + JoinCommas(names[1..])
  }

  ghost function ListText(allowed: set<string>): string {
    JoinCommas(SortedKeys(allowed))
  }

  const ALLOWLIST_PREFIX := "allowlist:"

  ghost function Fingerprint(p: Policy): string {
    match p
    case NoPolicy => "nil"
    case RequireAll => "require_all"
    case Auto => "auto"
    case Allowlist(allowed) => ALLOWLIST_PREFIX + ListText(allowed)
    case Custom(typeName) => "unknown:" + typeName
  }

  /** The names are collected in any order and sorted. */
  method ToolPolicyFingerprint(p: Policy) returns (r: string)
    ensures r == Fingerprint(p)
  {
    match p
    case NoPolicy => return "nil";
    case RequireAll => return "require_all";
    case Auto => return "auto";
    case Allowlist(allowed) =>
      var names := CollectSortedKeys(allowed);
      return ALLOWLIST_PREFIX + JoinCommas(names);
    case Custom(typeName) => return "unknown:" + typeName;
  }

  // ----- building an allowlist

  /** Trimmed and not empty, as every name in an allowlist is. */
  predicate Clean(s: string) {
    s != "" && !Names.IsSpace(s[0]) && !Names.IsSpace(s[|s| - 1])
  }

  lemma TrimmedIsClean(s: string)
    ensures Names.TrimSpace(s) != "" ==> Clean(Names.TrimSpace(s))
  {
    Names.TrimEnds(s, Names.IsSpace);
  }

  function McpToolName(server: string, tool: string): string {
    var sn, tn := Names.TrimSpace(server), Names.TrimSpace(tool);
    if sn == "" || tn == "" then "" else "mcp_" + sn + "_" + tn
  }

  function Named(s: string): set<string> {
    if Names.TrimSpace(s) == "" then {} else {Names.TrimSpace(s)}
  }

  function ToolsNamed(names: seq<string>): set<string> {
    set n, m | n in names && m in Named(n) :: m
  }

  function SubAgentsNamed(names: seq<string>): set<string> {
    set n, m | n in names && Names.SubAgentToolName(n).Some? && m in Named(Names.SubAgentToolName(n).value) :: m
  }

  function McpNamed(server: string, tools: seq<string>): set<string> {
    set t, m | t in tools && m in Named(McpToolName(server, t)) :: m
  }

  function AllMcpNamed(servers: map<string, seq<string>>): set<string> {
    set s, m | s in servers && m in McpNamed(s, servers[s]) :: m
  }

  method AddAll(names: seq<string>) returns (r: set<string>)
    ensures r == ToolsNamed(names)
  {
    r := {};
    for i := 0 to |names|
      invariant r == ToolsNamed(names[..i])
    {
      assert forall n :: n in names[..i + 1] <==> n in names[..i] || n == names[i];
      r := r + Named(names[i]);
    }
    assert names[..|names|] == names;
  }

  method AddSubAgents(names: seq<string>) returns (r: Option<set<string>>)
    ensures r.Some? <==> forall n :: n in names ==> Names.SubAgentToolName(n).Some?
    ensures r.Some? ==> r.value == SubAgentsNamed(names)
  {
    var all: set<string> := {};
    for i := 0 to |names|
      invariant forall n :: n in names[..i] ==> Names.SubAgentToolName(n).Some?
      invariant all == SubAgentsNamed(names[..i])
    {
      assert forall n :: n in names[..i + 1] <==> n in names[..i] || n == names[i];
      var name := Names.SubAgentToolName(names[i]);
      if name.None? {
        assert names[i] in names;
        return None;
      }
      all := all + Named(name.value);
    }
    assert names[..|names|] == names;
    return Some(all);
  }

  method AddMcp(server: string, tools: seq<string>) returns (r: set<string>)
    ensures r == McpNamed(server, tools)
  {
    r := {};
    for i := 0 to |tools|
      invariant r == McpNamed(server, tools[..i])
    {
      assert forall t :: t in tools[..i + 1] <==> t in tools[..i] || t == tools[i];
      r := r + Named(McpToolName(server, tools[i]));
    }
    assert tools[..|tools|] == tools;
  }

  function Expansion(tools: seq<string>, subAgents: seq<string>, mcp: map<string, seq<string>>): (r: set<string>)
    ensures forall n :: n in r ==> Clean(n)
  {
    assert forall s :: Names.TrimSpace(s) != "" ==> Clean(Names.TrimSpace(s)) by {
      forall s ensures Names.TrimSpace(s) != "" ==> Clean(Names.TrimSpace(s)) {
        TrimmedIsClean(s);
      }
    }
    ToolsNamed(tools) + SubAgentsNamed(subAgents) + AllMcpNamed(mcp)
  }

  lemma ToolsNamedMeans(tools: seq<string>, n: string)
    ensures n in ToolsNamed(tools) <==> n != "" && exists t :: t in tools && Names.TrimSpace(t) == n
  {
    forall t ensures n in Named(t) <==> n != "" && Names.TrimSpace(t) == n {
    }
    if t :| t in tools && Names.TrimSpace(t) == n && n != "" {
      assert n in Named(t);
    }
  }

  lemma SubAgentsNamedMeans(subAgents: seq<string>, n: string)
    ensures n in SubAgentsNamed(subAgents) <==> exists s :: s in subAgents && Names.SubAgentToolName(s) == Some(n)
  {
    forall s | Names.SubAgentToolName(s).Some? ensures Named(Names.SubAgentToolName(s).value) == {Names.SubAgentToolName(s).value} {
      ToolNameIsClean(s);
      Names.TrimKeeps(Names.SubAgentToolName(s).value, Names.IsSpace);
    }
  }

  lemma McpNamedOne(s: string, t: string, n: string)
    ensures n in Named(McpToolName(s, t)) <==>
      Names.TrimSpace(s) != "" && Names.TrimSpace(t) != "" && n == "mcp_" + Names.TrimSpace(s) + "_" + Names.TrimSpace(t)
  {
    if Names.TrimSpace(s) == "" || Names.TrimSpace(t) == "" {
      Names.TrimKeeps("", Names.IsSpace);
    } else {
      McpToolNameIsClean(s, t);
      Names.TrimKeeps(McpToolName(s, t), Names.IsSpace);
    }
  }

  /** The MCP tool name of a server's tool, both trimmed and not blank. */
  predicate NamesMcpTool(n: string, s: string, t: string) {
    Names.TrimSpace(s) != "" && Names.TrimSpace(t) != "" && n == "mcp_" + Names.TrimSpace(s) + "_" + Names.TrimSpace(t)
  }

  lemma AllMcpNamedMeans(mcp: map<string, seq<string>>, n: string)
    ensures n in AllMcpNamed(mcp) <==> exists s, t :: s in mcp && t in mcp[s] && NamesMcpTool(n, s, t)
  {
    forall s, t ensures n in Named(McpToolName(s, t)) <==> NamesMcpTool(n, s, t) {
      McpNamedOne(s, t, n);
    }
    if n in AllMcpNamed(mcp) {
      var s :| s in mcp && n in McpNamed(s, mcp[s]);
      var t :| t in mcp[s] && n in Named(McpToolName(s, t));
    }
    if s, t :| s in mcp && t in mcp[s] && NamesMcpTool(n, s, t) {
      assert n in McpNamed(s, mcp[s]);
    }
  }

  /** What is on the list: trimmed tool names, delegation tool names of sub-agents, and MCP tool names of trimmed servers and tools. */
  lemma ExpansionMeans(tools: seq<string>, subAgents: seq<string>, mcp: map<string, seq<string>>, n: string)
    ensures n in Expansion(tools, subAgents, mcp) <==>
      || (n != "" && exists t :: t in tools && Names.TrimSpace(t) == n)
      || (exists s :: s in subAgents && Names.SubAgentToolName(s) == Some(n))
      || (exists s, t :: s in mcp && t in mcp[s] && NamesMcpTool(n, s, t))
  {
    ToolsNamedMeans(tools, n);
    SubAgentsNamedMeans(subAgents, n);
    AllMcpNamedMeans(mcp, n);
  }

  lemma McpToolNameIsClean(s: string, t: string)
    requires Names.TrimSpace(s) != "" && Names.TrimSpace(t) != ""
    ensures Clean(McpToolName(s, t))
  {
    TrimmedIsClean(t);
  }

  lemma ToolNameIsClean(s: string)
    requires Names.SubAgentToolName(s).Some?
    ensures Clean(Names.SubAgentToolName(s).value)
  {
    Names.ToolNameIsJoinedRuns(s);
    Names.RunsAreRuns(s);
    Names.JoinEnds(Names.Runs(s));
  }

  /** Fails exactly on a sub-agent name without a tool name; map order does not affect the list. */
  method AllowlistToolApprovalPolicy(tools: seq<string>, subAgents: seq<string>, mcp: map<string, seq<string>>) returns (r: Option<Policy>)
    ensures r.Some? <==> forall n :: n in subAgents ==> Names.SubAgentToolName(n).Some?
    ensures r.Some? ==> r.value == Allowlist(Expansion(tools, subAgents, mcp))
  {
    var m := AddAll(tools);
    var subs := AddSubAgents(subAgents);
    if subs.None? {
      return None;
    }
    m := m + subs.value;
    var before := m;
    var rest := mcp.Keys;
    while rest != {}
      invariant rest <= mcp.Keys
      invariant m == before + set s, x | s in mcp && s !in rest && x in McpNamed(s, mcp[s]) :: x
      decreases rest
    {
      var s :| s in rest;
      var more := AddMcp(s, mcp[s]);
      m := m + more;
      rest := rest - {s};
    }
    return Some(Allowlist(m));
  }

  // ----- what a fingerprint tells apart

  predicate CommaFree(s: string) {
    ',' !in s
  }

  ghost predicate AllCommaFree(names: set<string>) {
    forall n :: n in names ==> CommaFree(n)
  }

  ghost predicate AllClean(names: set<string>) {
    forall n :: n in names ==> Clean(n)
  }

  lemma JoinStarts(p: seq<string>)
    requires |p| > 1
    ensures |JoinCommas(p)| > |p[0]| && JoinCommas(p)[|p[0]|] == ','
    ensures JoinCommas(p)[..|p[0]|] == p[0] && JoinCommas(p)[|p[0]| + 1..] == JoinCommas(p[1..])
  {
  }

  lemma NoCommaInFirst(p: seq<string>)
    requires p != [] && CommaFree(p[0])
    ensures |p[0]| <= |JoinCommas(p)| && (|p| == 1 ==> |JoinCommas(p)| == |p[0]|)
    ensures forall j :: 0 <= j < |p[0]| ==> JoinCommas(p)[j] != ','
  {
    assert forall j :: 0 <= j < |p[0]| ==> p[0][j] in p[0];
  }

  lemma NotShorter(p: seq<string>, q: seq<string>)
    requires p != [] && |q| > 1 && CommaFree(p[0]) && JoinCommas(p) == JoinCommas(q)
    ensures |p| > 1 && |p[0]| <= |q[0]|
  {
    JoinStarts(q);
    NoCommaInFirst(p);
  }

  /** Joining comma-free, non-empty names can be undone. */
  lemma {:induction false} JoinIsInjective(p: seq<string>, q: seq<string>)
    requires forall i :: 0 <= i < |p| ==> CommaFree(p[i]) && p[i] != ""
    requires forall i :: 0 <= i < |q| ==> CommaFree(q[i]) && q[i] != ""
    requires JoinCommas(p) == JoinCommas(q)
    ensures p == q
  {
    if |p| > 1 || |q| > 1 {
      if p == [] || q == [] {
        JoinStarts(if p == [] then q else p);
      } else {
        if |p| > 1 {
          NotShorter(q, p);
        }
        NotShorter(p, q);
        NotShorter(q, p);
        JoinStarts(p);
        JoinStarts(q);
        JoinIsInjective(p[1..], q[1..]);
        assert p == [p[0]] + p[1..] && q == [q[0]] + q[1..];
      }
    }
  }

  /** Comma-free allowlists with the same fingerprint are the same. */
  lemma CommaFreeListsAreToldApart(a: set<string>, b: set<string>)
    requires AllClean(a) && AllClean(b) && AllCommaFree(a) && AllCommaFree(b)
    requires Fingerprint(Allowlist(a)) == Fingerprint(Allowlist(b))
    ensures a == b
  {
    var fa, fb := Fingerprint(Allowlist(a)), Fingerprint(Allowlist(b));
    assert fa[|ALLOWLIST_PREFIX|..] == ListText(a) && fb[|ALLOWLIST_PREFIX|..] == ListText(b);
    SortedKeysAreTheKeys(a);
    SortedKeysAreTheKeys(b);
    assert forall i :: 0 <= i < |SortedKeys(a)| ==> SortedKeys(a)[i] in a;
    assert forall i :: 0 <= i < |SortedKeys(b)| ==> SortedKeys(b)[i] in b;
    JoinIsInjective(SortedKeys(a), SortedKeys(b));
    assert forall n :: n in a <==> n in b;
  }

  /**
    Given a comma-free allowlist, another one with the same fingerprint approves the same tools
    exactly when it is comma-free too.
  */
  lemma SameFingerprintSameApprovalsIff(a: set<string>, b: set<string>)
    requires AllClean(a) && AllClean(b) && AllCommaFree(a)
    requires Fingerprint(Allowlist(a)) == Fingerprint(Allowlist(b))
    ensures AllCommaFree(b) <==> forall t :: RequiresApproval(Allowlist(a), t) == RequiresApproval(Allowlist(b), t)
  {
    if AllCommaFree(b) {
      CommaFreeListsAreToldApart(a, b);
    } else if forall t :: RequiresApproval(Allowlist(a), t) == RequiresApproval(Allowlist(b), t) {
      var n :| n in b && !CommaFree(n);
      assert !RequiresApproval(Allowlist(b), n);
    }
  }

  /** The name of an only entry can be read as two names in order, separated by a comma. */
  predicate SplitsAt(s: string, i: nat) {
    && i < |s| && s[i] == ','
    && Clean(s[..i]) && Clean(s[i + 1..]) && s[..i] != s[i + 1..] && Le(s[..i], s[i + 1..])
  }

  /** When some other allowlist has the same fingerprint: a test on the list itself. */
  predicate Ambiguous(a: set<string>) {
    |a| > 1 || exists s, i :: s in a && 0 <= i < |s| && SplitsAt(s, i)
  }

  lemma SingletonText(s: string)
    ensures SortedKeys({s}) == [s] && ListText({s}) == s
  {
    assert multiset({s}) == multiset([s]);
    SortedIsUnique([s]);
  }

  lemma PairKeys(x: string, y: string)
    requires x != y && Le(x, y)
    ensures SortedKeys({x, y}) == [x, y]
  {
    var q := [x, y];
    assert multiset({x, y}) == multiset{x} + multiset{y};
    assert multiset(q) == multiset{x} + multiset{y};
    SortedIsUnique(q);
  }

  lemma PairText(x: string, y: string)
    requires x != y && Le(x, y)
    ensures ListText({x, y}) == x + "," + y
  {
    PairKeys(x, y);
    assert [x, y][1..] == [y] && JoinCommas([y]) == y;
  }

  lemma {:induction false} JoinIsClean(q: seq<string>)
    requires q != [] && forall i :: 0 <= i < |q| ==> Clean(q[i])
    ensures Clean(JoinCommas(q))
  {
    if |q| > 1 {
      JoinIsClean(q[1..]);
    }
  }

  lemma JoinFollowsItsFirst(q: seq<string>)
    requires q != []
    ensures Le(q[0], JoinCommas(q))
  {
    if |q| == 1 {
      LeTotal(q[0], q[0]);
    } else {
      PrefixLe(q[0], "," + JoinCommas(q[1..]));
      assert q[0] + ("," + JoinCommas(q[1..])) == JoinCommas(q);
    }
  }

  lemma JoinedNameCollides(a: set<string>)
    requires AllClean(a) && |a| > 1
    ensures AllClean({ListText(a)}) && {ListText(a)} != a && ListText({ListText(a)}) == ListText(a)
  {
    SortedKeysAreTheKeys(a);
    var q := SortedKeys(a);
    assert forall i :: 0 <= i < |q| ==> q[i] in a;
    JoinIsClean(q);
    SingletonText(ListText(a));
    assert |{ListText(a)}| == 1;
  }

  lemma SplitNameCollides(s: string, i: nat)
    requires SplitsAt(s, i)
    ensures AllClean({s[..i], s[i + 1..]}) && {s[..i], s[i + 1..]} != {s} && ListText({s[..i], s[i + 1..]}) == ListText({s})
  {
    PairText(s[..i], s[i + 1..]);
    SingletonText(s);
    assert s == s[..i] + "," + s[i + 1..];
    assert s[..i] in {s[..i], s[i + 1..]} && |s[..i]| != |s|;
  }

  /** An ambiguous list and a different one with its fingerprint. */
  lemma AmbiguousCollides(a: set<string>) returns (b: set<string>)
    requires AllClean(a) && Ambiguous(a)
    ensures AllClean(b) && b != a && Fingerprint(Allowlist(b)) == Fingerprint(Allowlist(a))
  {
    if |a| > 1 {
      b := {ListText(a)};
      JoinedNameCollides(a);
    } else {
      var s, i :| s in a && 0 <= i < |s| && SplitsAt(s, i);
      OnlyElement(a, s);
      b := {s[..i], s[i + 1..]};
      SplitNameCollides(s, i);
    }
  }

  lemma OnlyElement(a: set<string>, s: string)
    requires |a| <= 1 && s in a
    ensures a == {s}
  {
    assert |a - {s}| == 0;
  }

  lemma CountsTwice(q: seq<string>)
    requires |q| > 1 && q[0] == q[1]
    ensures multiset(q)[q[0]] >= 2
  {
    assert q == [q[0]] + [q[1]] + q[2..];
    assert multiset(q) == multiset{q[0]} + multiset{q[1]} + multiset(q[2..]);
  }

  lemma SortedKeysAreDistinct(b: set<string>)
    requires |b| > 1
    ensures var q := SortedKeys(b);
      |q| > 1 && q[0] != q[1] && Le(q[0], q[1]) && forall i :: 0 <= i < |q| ==> q[i] in b
  {
    SortedKeysAreTheKeys(b);
    SortedOfIsSorted(multiset(b));
    SortedOfKeepsElements(multiset(b));
    var q := SortedKeys(b);
    if q[0] == q[1] {
      CountsTwice(q);
    }
    assert multiset(b)[q[0]] <= 1;
  }

  /** A list of several names reads as its first name, a comma, and a later text. */
  lemma SeveralNamesSplit(b: set<string>)
    requires AllClean(b) && |b| > 1
    ensures SortedKeys(b) != [] && SplitsAt(ListText(b), |SortedKeys(b)[0]|)
  {
    SortedKeysAreDistinct(b);
    var q := SortedKeys(b);
    JoinStarts(q);
    JoinIsClean(q[1..]);
    JoinFollowsItsFirst(q[1..]);
    LeTransitive(q[0], q[1], JoinCommas(q[1..]));
    if q[0] == JoinCommas(q[1..]) {
      LeAntisymmetric(q[0], q[1]);
    }
  }

  lemma FewNames(a: set<string>)
    requires |a| <= 1 && AllClean(a)
    ensures ListText(a) == "" <==> a == {}
    ensures a != {} ==> a == {ListText(a)}
  {
    if a == {} {
      SortedKeysAreTheKeys(a);
    } else {
      var s :| s in a;
      OnlyElement(a, s);
      SingletonText(s);
    }
  }

  lemma CollisionIsAmbiguous(a: set<string>, b: set<string>)
    requires AllClean(a) && AllClean(b) && a != b && Fingerprint(Allowlist(a)) == Fingerprint(Allowlist(b))
    ensures Ambiguous(a)
  {
    var fa, fb := Fingerprint(Allowlist(a)), Fingerprint(Allowlist(b));
    assert fa[|ALLOWLIST_PREFIX|..] == ListText(a) && fb[|ALLOWLIST_PREFIX|..] == ListText(b);
    if |a| <= 1 {
      FewNames(a);
      if |b| <= 1 {
        FewNames(b);
      } else {
        SeveralNamesSplit(b);
        assert ListText(a) in a;
      }
    }
  }

  /**
    An allowlist's fingerprint belongs to it alone exactly when it has at most one name and that
    name does not read as several. Two names with a comma between them and one name with a comma
    in it look the same.
  */
  lemma FingerprintIsSharedIff(a: set<string>)
    requires AllClean(a)
    ensures Ambiguous(a) <==> exists b :: AllClean(b) && b != a && Fingerprint(Allowlist(b)) == Fingerprint(Allowlist(a))
  {
    if Ambiguous(a) {
      var b := AmbiguousCollides(a);
    }
    if b :| AllClean(b) && b != a && Fingerprint(Allowlist(b)) == Fingerprint(Allowlist(a)) {
      CollisionIsAmbiguous(a, b);
    }
  }

  /** Every set of clean names is the expansion of some configuration. */
  lemma CleanSetsCanBeBuilt(a: set<string>)
    requires AllClean(a)
    ensures Expansion(SortedKeys(a), [], map[]) == a
  {
    var names := SortedKeys(a);
    SortedKeysAreTheKeys(a);
    forall n | n in a ensures Named(n) == {n} {
      Names.TrimKeeps(n, Names.IsSpace);
    }
    assert ToolsNamed(names) == a;
    assert SubAgentsNamed([]) == {} && AllMcpNamed(map[]) == {};
  }

  /** So the collisions are among the allowlists the constructor builds. */
  lemma BuiltFingerprintIsSharedIff(a: set<string>)
    requires AllClean(a)
    ensures Ambiguous(a) <==>
      exists tools, subAgents, mcp ::
        Expansion(tools, subAgents, mcp) != a && Fingerprint(Allowlist(Expansion(tools, subAgents, mcp))) == Fingerprint(Allowlist(a))
  {
    FingerprintIsSharedIff(a);
    if b :| AllClean(b) && b != a && Fingerprint(Allowlist(b)) == Fingerprint(Allowlist(a)) {
      CleanSetsCanBeBuilt(b);
      assert Expansion(SortedKeys(b), [], map[]) == b;
    }
  }

  /** Require-all lets no tool through without approval, auto lets every tool through, an allowlist its own. */
  lemma ApprovalsOf(p: Policy, tool: string)
    requires p.RequireAll? || p.Auto? || p.Allowlist?
    ensures !RequiresApproval(p, tool) <==> p == Auto || (p.Allowlist? && tool in p.allowed)
  {
  }

  /** Different kinds of policy never share a fingerprint, and custom ones only with the same type name. */
  lemma FingerprintTellsKinds(p: Policy, q: Policy)
    requires Fingerprint(p) == Fingerprint(q)
    ensures p == q || (p.Allowlist? && q.Allowlist? && ListText(p.allowed) == ListText(q.allowed))
  {
    var fp, fq := Fingerprint(p), Fingerprint(q);
    FingerprintStart(p);
    FingerprintStart(q);
    if p.Custom? && q.Custom? {
      assert fp[8..] == p.typeName && fq[8..] == q.typeName;
    }
    if p.Allowlist? && q.Allowlist? {
      assert fp[|ALLOWLIST_PREFIX|..] == ListText(p.allowed) && fq[|ALLOWLIST_PREFIX|..] == ListText(q.allowed);
    }
  }

  lemma FingerprintStart(p: Policy)
    ensures |Fingerprint(p)| >= 3
    ensures Fingerprint(p)[..2] == match p case NoPolicy => "ni" case RequireAll => "re" case Auto => "au" case Allowlist(_) => "al" case Custom(_) => "un"
  {
    match p
    case NoPolicy => assert "nil"[..2] == "ni";
    case RequireAll => assert "require_all"[..2] == "re";
    case Auto => assert "auto"[..2] == "au";
    case Allowlist(a) => assert (ALLOWLIST_PREFIX + ListText(a))[..2] == "al";
    case Custom(t) => assert ("unknown:" + t)[..2] == "un";
  }

  /** Among require-all, auto and comma-free allowlists equal fingerprints mean the same approvals, tool by tool. */
  lemma EqualFingerprintsApproveAlike(p: Policy, q: Policy, tool: string)
    requires p.RequireAll? || p.Auto? || (p.Allowlist? && AllClean(p.allowed) && AllCommaFree(p.allowed))
    requires q.RequireAll? || q.Auto? || (q.Allowlist? && AllClean(q.allowed) && AllCommaFree(q.allowed))
    requires Fingerprint(p) == Fingerprint(q)
    ensures p == q && (RequiresApproval(p, tool) <==> RequiresApproval(q, tool))
    ensures !RequiresApproval(p, tool) <==> q == Auto || (q.Allowlist? && tool in q.allowed)
  {
    FingerprintTellsKinds(p, q);
    if p.Allowlist? {
      CommaFreeListsAreToldApart(p.allowed, q.allowed);
    }
  }

  /** A concrete pair: the same fingerprint, but the tool "a" needs approval under the first only. */
  lemma CommaCollision()
    ensures Fingerprint(Allowlist({"a,b"})) == Fingerprint(Allowlist({"a", "b"}))
    ensures RequiresApproval(Allowlist({"a,b"}), "a") && !RequiresApproval(Allowlist({"a", "b"}), "a")
  {
    SingletonText("a,b");
    assert "a"[0] < "b"[0];
    PairText("a", "b");
    assert "a" + "," + "b" == "a,b";
    assert |"a"| != |"a,b"|;
  }
}
