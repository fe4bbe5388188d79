/**
  The in-memory long-term memory store: upsert, scoped and filtered retrieval, and clearing, as an
  object that owns the map objects of its records, refining a simple filter, rank and take.
*/
module MemoryStore {
  import opened Wrappers
  import opened MemoryScopes
  import Names

  const DEFAULT_LIMIT: nat := 10

  /** A stored memory as a value. An `expiresAt` of zero is the zero time. */
  datatype Entry = Entry(id: string, text: string, kind: string, scope: Scope, metadata: map<string, string>,
                         expiresAt: int, score: real, createdAt: int, updatedAt: int)

  datatype LoadOptions = LoadOptions(limit: int, minScore: real, kinds: seq<string>)

  /** One retrieval: the scope, the normalised query, the options, and the time read when each record was visited. */
  datatype Request = Request(scope: Scope, query: string, opts: LoadOptions, clock: string -> int, lower: string -> string)

  predicate Expired(e: Entry, now: int) {
    e.expiresAt != 0 && now > e.expiresAt
  }

  predicate OccursAt(s: string, q: string, i: nat) {
    i + |q| <= |s| && s[i..i + |q|] == q
  }

  predicate Contains(s: string, q: string) {
    exists i :: 0 <= i <= |s| && OccursAt(s, q, i)
  }

  predicate Eligible(e: Entry, rq: Request) {
    && !Expired(e, rq.clock(e.id))
    && Matches(e.scope, rq.scope)
    && (rq.opts.kinds == [] || e.kind in rq.opts.kinds)
    && (rq.query == "" || (Contains(rq.lower(e.text), rq.query) && (rq.opts.minScore <= 0.0 || 1.0 >= rq.opts.minScore)))
  }

  /** A query match scores one; a listing by recency carries the stored score. */
  function Scored(e: Entry, rq: Request): Entry {
    if rq.query == "" then e else e.(score := 1.0)
  }

  function Limit(opts: LoadOptions): nat {
    if opts.limit <= 0 then DEFAULT_LIMIT else opts.limit
  }

  // ----- the specification

  type Records = map<string, Entry>

  ghost predicate Keyed(recs: Records) {
    forall id :: id in recs ==> recs[id].id == id
  }

  /** An upsert: everything is replaced except the creation time. */
  function Upserted(recs: Records, e: Entry): Records {
    recs[e.id := Stamped(recs, e)]
  }

  function Stamped(recs: Records, e: Entry): Entry {
    e.(createdAt := if e.id in recs then recs[e.id].createdAt else e.updatedAt, score := 0.0)
  }

  function Cleared(recs: Records, s: Scope): Records {
    if ScopeIsEmpty(s) then recs else map id | id in recs && !Matches(recs[id].scope, s) :: recs[id]
  }

  /** Part way through: the records of `rest` are still to be looked at. */
  function ClearedBut(recs: Records, s: Scope, rest: set<string>): Records {
    map id | id in recs && (id in rest || !Matches(recs[id].scope, s)) :: recs[id]
  }

  lemma ClearedButAll(recs: Records, s: Scope)
    ensures ClearedBut(recs, s, recs.Keys) == recs
    ensures !ScopeIsEmpty(s) ==> ClearedBut(recs, s, {}) == Cleared(recs, s)
  {
  }

  lemma ClearOne(recs: Records, s: Scope, rest: set<string>, id: string)
    requires id in rest && id in recs
    ensures ClearedBut(recs, s, rest - {id}) == if Matches(recs[id].scope, s) then ClearedBut(recs, s, rest) - {id} else ClearedBut(recs, s, rest)
  {
  }

  /** Filter. */
  function Hits(recs: Records, rq: Request): Records {
    map id | id in recs && Eligible(recs[id], rq) :: Scored(recs[id], rq)
  }

  /** Rank: all the hits, each once, newest first; the order among equal times is free. */
  ghost predicate IsRanking(all: seq<Entry>, hits: Records) {
    && (forall i, j :: 0 <= i < j < |all| ==> all[i].id != all[j].id)
    && (forall id :: id in hits ==> hits[id] in all)
    && (forall e: Entry :: e in all ==> e.id in hits && hits[e.id] == e)
    && (forall i, j :: 0 <= i < j < |all| ==> all[i].updatedAt >= all[j].updatedAt)
  }

  function Take<T>(s: seq<T>, n: nat): seq<T> {
    if |s| > n then s[..n] else s
  }

  /** What a retrieval may answer. */
  ghost predicate IsAnswer(r: seq<Entry>, recs: Records, rq: Request) {
    exists all :: IsRanking(all, Hits(recs, rq)) && r == Take(all, Limit(rq.opts))
  }

  // ----- what the specification promises

  lemma HitsAreEligible(recs: Records, rq: Request)
    requires Keyed(recs)
    ensures Keyed(Hits(recs, rq))
    ensures forall id :: id in Hits(recs, rq) <==> id in recs && Eligible(recs[id], rq)
    ensures forall id :: id in Hits(recs, rq) ==> Hits(recs, rq)[id] == Scored(recs[id], rq)
  {
  }

  lemma ContainsMeans(s: string, q: string)
    ensures Contains(s, q) <==> exists before, after :: s == before + q + after
  {
    if i :| 0 <= i <= |s| && OccursAt(s, q, i) {
      assert s == s[..i] + q + s[i + |q|..];
    }
    if before, after :| s == before + q + after {
      assert OccursAt(s, q, |before|);
    }
  }

  /**
    Which records a retrieval may return, said outright: not expired at the time read when they were
    visited, in scope field by field, of a wanted kind, and with the query somewhere in their text,
    a match that scores one.
  */
  lemma EligibleMeans(e: Entry, rq: Request)
    ensures Eligible(e, rq) <==>
      && (e.expiresAt == 0 || rq.clock(e.id) <= e.expiresAt)
      && FieldsMatch(e.scope, rq.scope)
      && (|rq.opts.kinds| == 0 || exists i :: 0 <= i < |rq.opts.kinds| && rq.opts.kinds[i] == e.kind)
      && (rq.query != "" ==>
          && (exists before, after :: rq.lower(e.text) == before + rq.query + after)
          && rq.opts.minScore <= 1.0)
  {
    MatchesIffFieldsMatch(e.scope, rq.scope);
    ContainsMeans(rq.lower(e.text), rq.query);
  }

  /**
    Every answer has at most the limit of entries, ten if none is given, newest first, each a
    different record of the wanted kind and scope that was not expired when it was visited and whose
    text has the query in it; its score is one for a query and as stored for a listing.
  */
  lemma AnswerIsRanked(r: seq<Entry>, recs: Records, rq: Request)
    requires Keyed(recs) && IsAnswer(r, recs, rq)
    ensures |r| <= if rq.opts.limit > 0 then rq.opts.limit else 10
    ensures forall i, j :: 0 <= i < j < |r| ==> r[i].updatedAt >= r[j].updatedAt && r[i].id != r[j].id
    ensures forall e: Entry :: e in r ==>
      && e.id in recs && Eligible(recs[e.id], rq)
      && e == (if rq.query == "" then recs[e.id] else recs[e.id].(score := 1.0))
    ensures forall e: Entry :: e in r ==>
      && (e.expiresAt != 0 ==> rq.clock(e.id) <= e.expiresAt) && FieldsMatch(e.scope, rq.scope)
      && (rq.opts.kinds != [] ==> e.kind in rq.opts.kinds)
      && (rq.query != "" ==> Contains(rq.lower(e.text), rq.query))
  {
    AnswersAreEligible(r, recs, rq);
    forall e: Entry | e in r ensures FieldsMatch(recs[e.id].scope, rq.scope) {
      MatchesIffFieldsMatch(recs[e.id].scope, rq.scope);
    }
  }

  lemma AnswersAreEligible(r: seq<Entry>, recs: Records, rq: Request)
    requires Keyed(recs) && IsAnswer(r, recs, rq)
    ensures |r| <= Limit(rq.opts)
    ensures forall i, j :: 0 <= i < j < |r| ==> r[i].updatedAt >= r[j].updatedAt && r[i].id != r[j].id
    ensures forall e: Entry :: e in r ==> e.id in recs && Eligible(recs[e.id], rq) && e == Scored(recs[e.id], rq)
  {
    HitsAreEligible(recs, rq);
    var hits := Hits(recs, rq);
    var all: seq<Entry> :| IsRanking(all, hits) && r == Take(all, Limit(rq.opts));
    forall e: Entry | e in r ensures e.id in hits && hits[e.id] == e {
      assert e in all;
    }
  }

  lemma OmittedRankLower(all: seq<Entry>, hits: Records, limit: nat, e: Entry)
    requires IsRanking(all, hits) && e in all && e !in Take(all, limit)
    ensures |Take(all, limit)| == limit
    ensures forall i :: 0 <= i < |Take(all, limit)| ==> Take(all, limit)[i].updatedAt >= e.updatedAt
  {
    var k :| 0 <= k < |all| && all[k] == e;
    if |all| > limit {
      assert forall m :: 0 <= m < limit ==> all[m] in all[..limit];
      assert k >= limit;
    }
  }

  /** If an eligible record is left out of an answer, the answer is full and nothing in it is older. */
  lemma OmittedIsNotNewer(r: seq<Entry>, recs: Records, rq: Request, id: string)
    requires Keyed(recs) && IsAnswer(r, recs, rq)
    requires id in recs && Eligible(recs[id], rq) && Scored(recs[id], rq) !in r
    ensures |r| == if rq.opts.limit > 0 then rq.opts.limit else 10
    ensures forall i :: 0 <= i < |r| ==> r[i].updatedAt >= recs[id].updatedAt
  {
    HitsAreEligible(recs, rq);
    var hits := Hits(recs, rq);
    var all: seq<Entry> :| IsRanking(all, hits) && r == Take(all, Limit(rq.opts));
    OmittedRankLower(all, hits, Limit(rq.opts), hits[id]);
  }

  /** After clearing a scope the guard lets through, no retrieval within it or a narrower scope finds anything. */
  lemma ClearedScopeIsEmpty(recs: Records, s: Scope, rq: Request, r: seq<Entry>)
    requires s != Scope("", "", "", map[]) && Matches(rq.scope, s) && IsAnswer(r, Cleared(recs, s), rq)
    ensures r == []
  {
    assert |s.tags| == 0 <==> s.tags == map[];
    var hits := Hits(Cleared(recs, s), rq);
    var all: seq<Entry> :| IsRanking(all, hits) && r == Take(all, Limit(rq.opts));
    assert all != [] ==> all[0] in all;
    forall id | id in hits ensures false {
      MatchingIsAPreorder(recs[id].scope, rq.scope, s);
    }
  }

  /** Records outside the scope stay as they are, and a retrieval that can only see those answers as before. */
  lemma ClearKeepsTheRest(recs: Records, s: Scope, rq: Request, r: seq<Entry>)
    requires forall id :: id in recs && Matches(recs[id].scope, s) ==> !Matches(recs[id].scope, rq.scope)
    ensures forall id :: id in recs && !Matches(recs[id].scope, s) ==> id in Cleared(recs, s) && Cleared(recs, s)[id] == recs[id]
    ensures IsAnswer(r, Cleared(recs, s), rq) <==> IsAnswer(r, recs, rq)
  {
    assert Hits(Cleared(recs, s), rq) == Hits(recs, rq);
  }

  /** What a Clear leaves, outright: everything when no field and no tag is given, otherwise the records the scope does not match field by field. */
  lemma ClearMeans(recs: Records, s: Scope, id: string)
    ensures id in Cleared(recs, s) <==>
      id in recs && (s == Scope("", "", "", map[]) || !FieldsMatch(recs[id].scope, s))
    ensures id in Cleared(recs, s) ==> Cleared(recs, s)[id] == recs[id]
  {
    assert |s.tags| == 0 <==> s.tags == map[];
    if id in recs {
      MatchesIffFieldsMatch(recs[id].scope, s);
    }
  }

  lemma ClearRemovesAllWhenOnlyReservedTags(recs: Records, s: Scope)
    requires !ScopeIsEmpty(s) && Meta(s) == map[]
    ensures Cleared(recs, s) == map[]
  {
    forall id | id in recs ensures Matches(recs[id].scope, s) {
      EmptyMetaMatchesAll(recs[id].scope, s);
    }
  }

  /** A Clear removes everything, whatever is stored, exactly when its scope passes the guard with no metadata. */
  lemma ClearRemovesEverythingIff(s: Scope)
    ensures (forall recs: Records :: Cleared(recs, s) == map[]) <==> !ScopeIsEmpty(s) && Meta(s) == map[]
  {
    if !ScopeIsEmpty(s) && Meta(s) == map[] {
      forall recs: Records ensures Cleared(recs, s) == map[] {
        ClearRemovesAllWhenOnlyReservedTags(recs, s);
      }
    } else {
      var unscoped := Scope("", "", "", map[]);
      var one: Records := map["" := Entry("", "", "", unscoped, map[], 0, 0.0, 0, 0)];
      MetaIsEmptyIff(unscoped);
      if !ScopeIsEmpty(s) {
        var k :| k in Meta(s);
        assert !Matches(unscoped, s);
      }
      assert "" in Cleared(one, s);
    }
  }

  // ----- histories

  datatype Op = StoreOp(entry: Entry) | ClearOp(scope: Scope)

  function After(ops: seq<Op>): Records {
    if ops == [] then map[]
    else
      var before := After(ops[..|ops| - 1]);
      match ops[|ops| - 1]
      case StoreOp(e) => Upserted(before, e)
      case ClearOp(s) => Cleared(before, s)
  }

  /** The guard's gap at one input: a scope with the single tag "user_id" passes as not empty and clears whatever record was stored. */
  lemma ReservedTagClearsTheStore(e: Entry)
    ensures var s := Scope("", "", "", map["user_id" := "x"]);
      && !ScopeIsEmpty(s) && After([StoreOp(e)]) != map[] && After([StoreOp(e), ClearOp(s)]) == map[]
  {
    var s, stored := Scope("", "", "", map["user_id" := "x"]), [StoreOp(e)];
    assert [StoreOp(e), ClearOp(s)][..1] == stored;
    assert "user_id" in s.tags && e.id in After(stored);
    MetaIsEmptyIff(s);
    ClearRemovesAllWhenOnlyReservedTags(After(stored), s);
  }

  lemma {:induction false} HistoryIsKeyed(ops: seq<Op>)
    ensures Keyed(After(ops))
  {
    if ops != [] {
      HistoryIsKeyed(ops[..|ops| - 1]);
    }
  }

  predicate Stores(op: Op, id: string) {
    op.StoreOp? && op.entry.id == id
  }

  predicate Clears(op: Op, s: Scope) {
    op.ClearOp? && !ScopeIsEmpty(op.scope) && Matches(s, op.scope)
  }

  /** The last store of `id` is number `i`, and no clear since then covers the scope it was stored in. */
  ghost predicate Survives(ops: seq<Op>, id: string, i: nat) {
    && i < |ops| && Stores(ops[i], id)
    && forall j :: i < j < |ops| ==> !Stores(ops[j], id) && !Clears(ops[j], ops[i].entry.scope)
  }

  /** Whether `id` is recorded after each number of operations, from none to all. */
  function Presence(ops: seq<Op>, id: string): (r: seq<bool>)
    ensures |r| == |ops| + 1
  {
    if ops == [] then [false] else Presence(ops[..|ops| - 1], id) + [id in After(ops)]
  }

  lemma {:induction false} PresenceAt(ops: seq<Op>, id: string, k: nat)
    requires k <= |ops|
    ensures Presence(ops, id)[k] <==> id in After(ops[..k])
  {
    if k == |ops| {
      assert ops[..k] == ops;
    } else {
      PresenceAt(ops[..|ops| - 1], id, k);
      assert ops[..|ops| - 1][..k] == ops[..k];
    }
  }

  /** Store number `b` of `id` began the record: it was absent then, and since then has been overwritten but never removed. */
  ghost predicate BornAt(ops: seq<Op>, id: string, b: nat) {
    && b < |ops| && Stores(ops[b], id)
    && !Presence(ops, id)[b] && forall k :: b < k <= |ops| ==> Presence(ops, id)[k]
  }

  /** A store of an absent record begins it; any other step that leaves it there keeps its beginning. */
  lemma BirthCarriesOver(front: seq<Op>, op: Op, id: string, b: nat, before: seq<bool>)
    requires before == Presence(front, id) && Presence(front + [op], id) == before + [true]
    requires if before[|front|] then BornAt(front, id, b) else Stores(op, id) && b == |front|
    ensures BornAt(front + [op], id, b)
  {
  }

  lemma PresenceSnoc(front: seq<Op>, op: Op, id: string)
    ensures Presence(front + [op], id) == Presence(front, id) + [id in After(front + [op])]
    ensures Presence(front, id)[|front|] <==> id in After(front)
  {
    assert (front + [op])[..|front|] == front;
    PresenceAt(front, id, |front|);
    assert front[..|front|] == front;
  }

  /** The last store is the new one, or the one before if this step neither stores nor removes the record. */
  lemma SurvivalCarriesOver(ops: seq<Op>, id: string, i: nat)
    requires ops != [] && id in After(ops)
    requires var n := |ops| - 1;
      if Stores(ops[n], id) then i == n
      else Survives(ops[..n], id, i) && id in After(ops[..n]) && After(ops[..n])[id].scope == ops[i].entry.scope
    ensures Survives(ops, id, i)
  {
    var n := |ops| - 1;
    if !Stores(ops[n], id) {
      LastStepDidNotClear(ops, id);
      forall j | i < j < |ops| ensures !Stores(ops[j], id) && !Clears(ops[j], ops[i].entry.scope) {
        assert j == n || ops[..n][j] == ops[j];
      }
    }
  }

  lemma LastStepDidNotClear(ops: seq<Op>, id: string)
    requires ops != [] && id in After(ops) && id in After(ops[..|ops| - 1])
    ensures !Stores(ops[|ops| - 1], id) ==> !Clears(ops[|ops| - 1], After(ops[..|ops| - 1])[id].scope)
  {
  }

  lemma {:induction false} RecordWasStored(ops: seq<Op>, id: string) returns (i: nat, b: nat)
    requires id in After(ops)
    ensures Survives(ops, id, i) && BornAt(ops, id, b) && b <= i
    ensures After(ops)[id] == ops[i].entry.(createdAt := ops[b].entry.updatedAt, score := 0.0)
  {
    var n := |ops| - 1;
    if id in After(ops[..n]) {
      i, b := RecordWasStored(ops[..n], id);
    } else {
      i, b := n, n;
    }
    assert ops[..n] + [ops[n]] == ops;
    PresenceSnoc(ops[..n], ops[n], id);
    BirthCarriesOver(ops[..n], ops[n], id, b, Presence(ops[..n], id));
    if Stores(ops[n], id) {
      i := n;
    }
    SurvivalCarriesOver(ops, id, i);
  }

  lemma {:induction false} SurvivorIsRecorded(ops: seq<Op>, id: string, i: nat)
    requires Survives(ops, id, i)
    ensures id in After(ops) && After(ops)[id].scope == ops[i].entry.scope
    decreases |ops|
  {
    var n := |ops| - 1;
    if i < n {
      SurvivorIsRecorded(ops[..n], id, i);
    }
  }

  /**
    For every history: a record is there exactly when its last store has not been cleared since; it
    holds what that store gave, with the creation time of the store that began it.
  */
  lemma RecordIsLastStore(ops: seq<Op>, id: string)
    ensures id in After(ops) <==> exists i :: Survives(ops, id, i)
    ensures id in After(ops) ==>
      exists i: nat, b: nat ::
        Survives(ops, id, i) && BornAt(ops, id, b) && b <= i
        && After(ops)[id] == ops[i].entry.(createdAt := ops[b].entry.updatedAt, score := 0.0)
  {
    if id in After(ops) {
      var i, b := RecordWasStored(ops, id);
    }
    if i :| Survives(ops, id, i) {
      SurvivorIsRecorded(ops, id, i);
    }
  }
}
