/** The in-memory memory object: its record map, and the map objects it copies in and out. */
module InmemMemory {
  import opened Wrappers
  import opened Insertion
  import opened MemoryScopes
  import opened MemoryStore
  import Names

  /** A Go map object. Two references to one object share its contents. */
  class GoMap {
    var data: map<string, string>

    constructor (data: map<string, string>)
      ensures this.data == data
    {
      this.data := data;
    }
  }

  ghost function Maps(g: GoMap?): set<GoMap> {
    if g == null then {} else {g}
  }

  function Data(g: GoMap?): map<string, string>
    reads Maps(g)
  {
    if g == null then map[] else g.data
  }

  datatype ScopeRef = ScopeRef(userId: string, tenantId: string, agentId: string, tags: GoMap?)

  datatype RecordRef = RecordRef(text: string, kind: string, metadata: GoMap?, expiresAt: int)

  datatype EntryRef = EntryRef(id: string, text: string, kind: string, scope: ScopeRef, metadata: GoMap?,
                               expiresAt: int, score: real, createdAt: int, updatedAt: int)

  ghost function MapsOf(e: EntryRef): set<GoMap> {
    Maps(e.scope.tags) + Maps(e.metadata)
  }

  function ScopeOf(s: ScopeRef): Scope
    reads Maps(s.tags)
  {
    Scope(s.userId, s.tenantId, s.agentId, Data(s.tags))
  }

  function EntryOf(e: EntryRef): Entry
    reads MapsOf(e)
  {
    Entry(e.id, e.text, e.kind, ScopeOf(e.scope), Data(e.metadata), e.expiresAt, e.score, e.createdAt, e.updatedAt)
  }

  /** A new map object with the same contents; none for an empty one. */
  method CloneMap(g: GoMap?) returns (r: GoMap?)
    ensures r != null ==> fresh(r)
    ensures Data(r) == Data(g)
  {
    if g == null || g.data == map[] {
      return null;
    }
    r := new GoMap(map[]);
    var rest := g.data.Keys;
    while rest != {}
      invariant fresh(r) && rest <= g.data.Keys
      invariant r.data == map k | k in g.data && k !in rest :: g.data[k]
      decreases |rest|
    {
      var k :| k in rest;
      rest := rest - {k};
      r.data := r.data[k := g.data[k]];
    }
  }

  method CloneScope(s: ScopeRef) returns (r: ScopeRef)
    ensures fresh(Maps(r.tags)) && ScopeOf(r) == ScopeOf(s)
  {
    var tags := CloneMap(s.tags);
    r := ScopeRef(s.userId, s.tenantId, s.agentId, tags);
  }

  method CloneEntry(e: EntryRef) returns (r: EntryRef)
    ensures fresh(MapsOf(r)) && EntryOf(r) == EntryOf(e)
  {
    var scope := CloneScope(e.scope);
    var metadata := CloneMap(e.metadata);
    r := EntryRef(e.id, e.text, e.kind, scope, metadata, e.expiresAt, e.score, e.createdAt, e.updatedAt);
  }

  /** `e` holds the value `v`. */
  ghost predicate Reads(e: EntryRef, v: Entry)
    reads MapsOf(e)
  {
    EntryOf(e) == v
  }

  method CloneEntries(es: seq<EntryRef>, ghost vs: seq<Entry>) returns (out: seq<EntryRef>)
    requires |vs| == |es| && forall j :: 0 <= j < |es| ==> Reads(es[j], vs[j])
    ensures |out| == |es|
    ensures forall j :: 0 <= j < |out| ==> fresh(MapsOf(out[j])) && Reads(out[j], vs[j])
  {
    out := [];
    for i := 0 to |es|
      invariant |out| == i
      invariant forall j :: 0 <= j < i ==> fresh(MapsOf(out[j])) && Reads(out[j], vs[j])
    {
      assert Reads(es[i], vs[i]);
      var e := CloneEntry(es[i]);
      out := out + [e];
    }
  }

  function Ids(es: seq<EntryRef>): set<string> {
    set e | e in es :: e.id
  }

  lemma IdsSnoc(es: seq<EntryRef>, e: EntryRef)
    ensures Ids(es + [e]) == Ids(es) + {e.id}
  {
    assert e in es + [e];
    assert forall x :: x in es ==> x in es + [e];
  }

  lemma IdsOfPermutation(es: seq<EntryRef>, r: seq<EntryRef>)
    requires multiset(es) == multiset(r)
    ensures Ids(es) == Ids(r)
  {
    assert forall x :: x in es <==> x in multiset(r);
    assert forall x :: x in r <==> x in multiset(es);
  }

  ghost predicate NewestFirst(es: seq<EntryRef>) {
    forall i, j :: 0 <= i < j < |es| ==> es[i].updatedAt >= es[j].updatedAt
  }

  ghost predicate Distinct(es: seq<EntryRef>) {
    forall i, j :: 0 <= i < j < |es| ==> es[i].id != es[j].id
  }

  lemma InsertedStaysDistinct(es: seq<EntryRef>, at: nat, e: EntryRef)
    requires at <= |es| && Distinct(es) && forall i :: 0 <= i < |es| ==> es[i].id != e.id
    ensures Distinct(InsertedAt(es, at, e)) && multiset(InsertedAt(es, at, e)) == multiset(es) + multiset{e}
  {
    InsertedElements(es, at, e);
    var r := InsertedAt(es, at, e);
    forall i, j | 0 <= i < j < |r| ensures r[i].id != r[j].id {
      InsertedAtIndex(es, at, e, i);
      InsertedAtIndex(es, at, e, j);
    }
  }

  method InsertNewestFirst(es: seq<EntryRef>, e: EntryRef) returns (r: seq<EntryRef>)
    requires NewestFirst(es)
    requires Distinct(es) && forall i :: 0 <= i < |es| ==> es[i].id != e.id
    ensures NewestFirst(r) && Distinct(r) && multiset(r) == multiset(es) + multiset{e}
  {
    var at := 0;
    while at < |es| && es[at].updatedAt >= e.updatedAt
      invariant at <= |es| && forall j :: 0 <= j < at ==> es[j].updatedAt >= e.updatedAt
    {
      at := at + 1;
    }
    r := InsertedAt(es, at, e);
    InsertedStaysDistinct(es, at, e);
    forall i, j | 0 <= i < j < |r| ensures r[i].updatedAt >= r[j].updatedAt {
      InsertedAtIndex(es, at, e, i);
      InsertedAtIndex(es, at, e, j);
    }
  }

  /** The library sort: newest first, keeping the elements; ties fall as they may. */
  method SortNewestFirst(es: seq<EntryRef>) returns (r: seq<EntryRef>)
    requires Distinct(es)
    ensures NewestFirst(r) && Distinct(r) && multiset(r) == multiset(es)
  {
    r := [];
    for i := 0 to |es|
      invariant NewestFirst(r) && Distinct(r) && multiset(r) == multiset(es[..i])
    {
      assert es[..i + 1] == es[..i] + [es[i]];
      forall j | 0 <= j < |r| ensures r[j].id != es[i].id {
        assert r[j] in multiset(es[..i]);
      }
      r := InsertNewestFirst(r, es[i]);
    }
    assert es[..|es|] == es;
  }

  method KindMatches(kind: string, kinds: seq<string>) returns (ok: bool)
    ensures ok <==> kinds == [] || kind in kinds
  {
    if |kinds| == 0 {
      return true;
    }
    for i := 0 to |kinds|
      invariant kind !in kinds[..i]
    {
      if kind == kinds[i] {
        return true;
      }
    }
    return false;
  }

  /** What a caller asks to be stored, with the current contents of the maps passed in. */
  function GivenEntry(id: string, scope: ScopeRef, rec: RecordRef, now: int): Entry
    reads Maps(scope.tags), Maps(rec.metadata)
  {
    Entry(id, rec.text, rec.kind, ScopeOf(scope), Data(rec.metadata), rec.expiresAt, 0.0, now, now)
  }

  method NewEntry(id: string, scope: ScopeRef, rec: RecordRef, createdAt: int, now: int) returns (e: EntryRef)
    ensures e.id == id && fresh(MapsOf(e)) && EntryOf(e) == GivenEntry(id, scope, rec, now).(createdAt := createdAt)
  {
    var scopeCopy := CloneScope(scope);
    var metadata := CloneMap(rec.metadata);
    e := EntryRef(id, rec.text, rec.kind, scopeCopy, metadata, rec.expiresAt, 0.0, createdAt, now);
  }

  // ----- retrieval

  function NormalQuery(query: string, lower: string -> string): string {
    lower(Names.TrimSpace(query))
  }

  function ScoredRef(e: EntryRef, rq: Request): (r: EntryRef)
    ensures r.id == e.id && r.updatedAt == e.updatedAt && MapsOf(r) == MapsOf(e)
  {
    if rq.query == "" then e else e.(score := 1.0)
  }

  lemma ScoredRefIsScored(e: EntryRef, rq: Request)
    ensures EntryOf(ScoredRef(e, rq)) == Scored(EntryOf(e), rq)
  {
  }

  /** One turn of the loop of Load: the entry as it will be returned, or None when it is filtered out. */
  method Examine(e: EntryRef, scope: ScopeRef, rq: Request) returns (m: Option<EntryRef>)
    requires rq.scope == ScopeOf(scope)
    ensures m.Some? <==> Eligible(EntryOf(e), rq)
    ensures m.Some? ==> m.value == ScoredRef(e, rq)
  {
    if e.expiresAt != 0 && rq.clock(e.id) > e.expiresAt {
      return None;
    }
    var inScope := ScopeMatches(ScopeOf(e.scope), ScopeOf(scope));
    if !inScope {
      return None;
    }
    var wanted := KindMatches(e.kind, rq.opts.kinds);
    if !wanted {
      return None;
    }
    var recencyOnly := rq.query == "";
    var matched := e;
    if !recencyOnly {
      if !Contains(rq.lower(e.text), rq.query) {
        return None;
      }
      matched := matched.(score := 1.0);
    }
    if !recencyOnly && rq.opts.minScore > 0.0 && matched.score < rq.opts.minScore {
      return None;
    }
    return Some(matched);
  }

  ghost predicate Decides(hits: Records, id: string, e: Entry, rq: Request) {
    && (id in hits <==> Eligible(e, rq))
    && (id in hits ==> hits[id] == Scored(e, rq))
  }

  /** `hits` are the eligible records, scored. */
  ghost predicate Selected(hits: Records, recs: Records, rq: Request) {
    forall id {:trigger Decides(hits, id, recs[id], rq)} :: id in recs ==> Decides(hits, id, recs[id], rq)
  }

  /** `e` is the reference to hit number `e.id`. */
  ghost predicate RefersTo(e: EntryRef, hits: Records) {
    e.id in hits && hits[e.id].updatedAt == e.updatedAt
  }

  ghost predicate IsMatch(e: EntryRef, recs: map<string, EntryRef>, hits: Records, rq: Request) {
    e.id in hits && e.id in recs && e == ScoredRef(recs[e.id], rq)
  }

  /** The hits among `ids`, each gathered once. */
  ghost predicate Gathered(es: seq<EntryRef>, ids: set<string>, recs: map<string, EntryRef>, hits: Records, rq: Request) {
    && Distinct(es) && Ids(es) == ids
    && forall i :: 0 <= i < |es| ==> IsMatch(es[i], recs, hits, rq)
  }

  lemma GatherOne(es: seq<EntryRef>, ids: set<string>, recs: map<string, EntryRef>, hits: Records, rq: Request, e: EntryRef)
    requires Gathered(es, ids, recs, hits, rq) && e.id !in ids && IsMatch(e, recs, hits, rq)
    ensures Gathered(es + [e], ids + {e.id}, recs, hits, rq)
  {
    IdsSnoc(es, e);
    forall i | 0 <= i < |es + [e]| ensures IsMatch((es + [e])[i], recs, hits, rq) {
      if i < |es| {
        assert (es + [e])[i] == es[i];
      }
    }
  }

  ghost function Values(es: seq<EntryRef>, hits: Records): (r: seq<Entry>)
    requires forall i :: 0 <= i < |es| ==> RefersTo(es[i], hits)
    ensures |r| == |es| && forall i :: 0 <= i < |es| ==> RefersTo(es[i], hits) && r[i] == hits[es[i].id]
  {
    if es == [] then []
    else
      assert RefersTo(es[|es| - 1], hits);
      Values(es[..|es| - 1], hits) + [hits[es[|es| - 1].id]]
  }

  lemma EveryHitIsListed(es: seq<EntryRef>, hits: Records, id: string)
    requires (forall i :: 0 <= i < |es| ==> RefersTo(es[i], hits)) && id in Ids(es) && id in hits
    ensures hits[id] in Values(es, hits)
  {
    var e :| e in es && e.id == id;
    var i :| 0 <= i < |es| && es[i] == e;
    assert Values(es, hits)[i] == hits[id];
  }

  lemma ListedAreHits(es: seq<EntryRef>, hits: Records, e: Entry)
    requires (forall i :: 0 <= i < |es| ==> RefersTo(es[i], hits)) && Keyed(hits) && e in Values(es, hits)
    ensures e.id in hits && hits[e.id] == e
  {
    var i :| 0 <= i < |es| && Values(es, hits)[i] == e;
    assert RefersTo(es[i], hits);
  }

  lemma ValuesInOrder(es: seq<EntryRef>, hits: Records, i: nat, j: nat)
    requires (forall k :: 0 <= k < |es| ==> RefersTo(es[k], hits)) && Keyed(hits) && NewestFirst(es) && Distinct(es) && i < j < |es|
    ensures Values(es, hits)[i].updatedAt >= Values(es, hits)[j].updatedAt && Values(es, hits)[i].id != Values(es, hits)[j].id
  {
    assert RefersTo(es[i], hits) && RefersTo(es[j], hits);
  }

  /** References to all the hits, newest first, are a ranking. */
  lemma SortedIsRanking(es: seq<EntryRef>, hits: Records)
    requires (forall i :: 0 <= i < |es| ==> RefersTo(es[i], hits)) && Keyed(hits) && NewestFirst(es)
    requires Distinct(es) && Ids(es) == hits.Keys
    ensures IsRanking(Values(es, hits), hits)
  {
    var all := Values(es, hits);
    forall id | id in hits ensures hits[id] in all {
      EveryHitIsListed(es, hits, id);
    }
    forall i, j | 0 <= i < j < |all| ensures all[i].updatedAt >= all[j].updatedAt && all[i].id != all[j].id {
      ValuesInOrder(es, hits, i, j);
    }
    forall e: Entry | e in all ensures e.id in hits && hits[e.id] == e {
      ListedAreHits(es, hits, e);
    }
  }

  method SortGathered(es: seq<EntryRef>, ghost recs: map<string, EntryRef>, ghost hits: Records, ghost rq: Request) returns (r: seq<EntryRef>)
    requires Gathered(es, hits.Keys, recs, hits, rq)
    ensures Gathered(r, hits.Keys, recs, hits, rq) && NewestFirst(r)
  {
    r := SortNewestFirst(es);
    IdsOfPermutation(es, r);
    forall i | 0 <= i < |r| ensures IsMatch(r[i], recs, hits, rq) {
      assert r[i] in multiset(es);
    }
  }

  class InmemMemory {
    var records: map<string, EntryRef>
    ghost var own: set<GoMap>
    ghost var view: Records

    /** The store owns the map objects of its records; `view` is what they hold. */
    ghost predicate Valid()
      reads this, own
    {
      && view.Keys == records.Keys
      && forall id :: id in records ==> Holds(id, records[id])
    }

    ghost predicate Holds(id: string, e: EntryRef)
      reads this, own
    {
      e.id == id && MapsOf(e) <= own && id in view && view[id] == EntryOf(e)
    }

    constructor ()
      ensures Valid() && view == map[] && own == {}
    {
      records := map[];
      own := {};
      view := map[];
    }

    /** `minted` is the random id used when the caller gives none, `now` the clock reading. */
    method Store(scope: ScopeRef, rec: RecordRef, givenId: string, minted: string, now: int) returns (id: string)
      requires Valid()
      modifies this
      ensures Valid() && fresh(own - old(own)) && old(own) <= own
      ensures id == if Names.TrimSpace(givenId) == "" then minted else Names.TrimSpace(givenId)
      ensures view == Upserted(old(view), old(Entry(id, rec.text, rec.kind, ScopeOf(scope), Data(rec.metadata), rec.expiresAt, 0.0, now, now)))
    {
      id := Names.TrimSpace(givenId);
      if id == "" {
        id := minted;
      }
      var createdAt := now;
      if id in records {
        assert Holds(id, records[id]);
        createdAt := records[id].createdAt;
      }
      ghost var given := GivenEntry(id, scope, rec, now);
      var entry := NewEntry(id, scope, rec, createdAt, now);
      assert EntryOf(entry) == Stamped(view, given);
      Put(id, entry, Stamped(view, given));
    }

    /** One stored record examined: it joins the matches exactly when it is a hit. */
    method Visit(id: string, scope: ScopeRef, rq: Request, ghost hits: Records, matches: seq<EntryRef>, ghost rest: set<string>) returns (r: seq<EntryRef>)
      requires Valid() && rq.scope == ScopeOf(scope) && Selected(hits, view, rq)
      requires id in records && id in rest && Gathered(matches, hits.Keys - rest, records, hits, rq)
      ensures Gathered(r, hits.Keys - (rest - {id}), records, hits, rq)
    {
      assert Holds(id, records[id]) && Decides(hits, id, view[id], rq);
      var m := Examine(records[id], scope, rq);
      if m.Some? {
        GatherOne(matches, hits.Keys - rest, records, hits, rq, m.value);
        assert hits.Keys - (rest - {id}) == hits.Keys - rest + {id};
        r := matches + [m.value];
      } else {
        assert hits.Keys - (rest - {id}) == hits.Keys - rest;
        r := matches;
      }
    }

    /** The matching records, in the order the map is ranged over: none missing, none twice. */
    method Collect(scope: ScopeRef, rq: Request, ghost hits: Records) returns (matches: seq<EntryRef>)
      requires Valid() && rq.scope == ScopeOf(scope) && Selected(hits, view, rq) && hits.Keys <= records.Keys
      ensures Gathered(matches, hits.Keys, records, hits, rq)
    {
      matches := [];
      var rest := records.Keys;
      assert hits.Keys - rest == {};
      while rest != {}
        invariant rest <= records.Keys
        invariant Gathered(matches, hits.Keys - rest, records, hits, rq)
        decreases rest
      {
        var id :| id in rest;
        matches := Visit(id, scope, rq, hits, matches, rest);
        rest := rest - {id};
      }
      assert hits.Keys - rest == hits.Keys;
    }

    lemma MatchIsHit(e: EntryRef, hits: Records, rq: Request)
      requires Valid() && Selected(hits, view, rq) && IsMatch(e, records, hits, rq)
      ensures EntryOf(e) == hits[e.id] && RefersTo(e, hits)
    {
      assert Holds(e.id, records[e.id]) && Decides(hits, e.id, view[e.id], rq);
      ScoredRefIsScored(records[e.id], rq);
    }

    lemma HitsAreSelected(rq: Request)
      requires Valid()
      ensures var hits := Hits(view, rq); Selected(hits, view, rq) && Keyed(hits) && hits.Keys <= records.Keys
    {
      forall id | id in view ensures view[id].id == id && Decides(Hits(view, rq), id, view[id], rq) {
        assert Holds(id, records[id]);
      }
    }

    method Load(scope: ScopeRef, query: string, opts: LoadOptions, clock: string -> int, lower: string -> string)
        returns (r: seq<EntryRef>, ghost shown: seq<Entry>)
      requires Valid()
      ensures |r| == |shown|
      ensures forall i :: 0 <= i < |r| ==> fresh(MapsOf(r[i])) && Reads(r[i], shown[i])
      ensures IsAnswer(shown, view, Request(ScopeOf(scope), lower(Names.TrimSpace(query)), opts, clock, lower))
    {
      var limit := opts.limit;
      if limit <= 0 {
        limit := DEFAULT_LIMIT;
      }
      var rq := Request(ScopeOf(scope), NormalQuery(query, lower), opts, clock, lower);
      ghost var hits := Hits(view, rq);
      HitsAreSelected(rq);
      r, shown := LoadHits(scope, rq, limit, hits);
    }

    method LoadHits(scope: ScopeRef, rq: Request, limit: nat, ghost hits: Records) returns (r: seq<EntryRef>, ghost shown: seq<Entry>)
      requires Valid() && rq.scope == ScopeOf(scope) && Selected(hits, view, rq) && Keyed(hits) && hits.Keys <= records.Keys
      ensures |r| == |shown|
      ensures forall i :: 0 <= i < |r| ==> fresh(MapsOf(r[i])) && Reads(r[i], shown[i])
      ensures exists all :: IsRanking(all, hits) && shown == Take(all, limit)
    {
      var matches;
      ghost var all;
      matches, all := Ranked(scope, rq, hits);
      shown := Take(all, limit);
      if |matches| > limit {
        matches := matches[..limit];
      }
      r := CloneEntries(matches, shown);
    }

    /** All the matches, newest first, with the values they hold. */
    method Ranked(scope: ScopeRef, rq: Request, ghost hits: Records) returns (matches: seq<EntryRef>, ghost all: seq<Entry>)
      requires Valid() && rq.scope == ScopeOf(scope) && Selected(hits, view, rq) && Keyed(hits) && hits.Keys <= records.Keys
      ensures |matches| == |all| && IsRanking(all, hits)
      ensures forall i :: 0 <= i < |matches| ==> Reads(matches[i], all[i])
    {
      matches := Collect(scope, rq, hits);
      matches := SortGathered(matches, records, hits, rq);
      forall i | 0 <= i < |matches| ensures RefersTo(matches[i], hits) && Reads(matches[i], hits[matches[i].id]) {
        MatchIsHit(matches[i], hits, rq);
      }
      SortedIsRanking(matches, hits);
      all := Values(matches, hits);
    }

    method Clear(scope: ScopeRef)
      requires Valid()
      modifies this
      ensures Valid() && own == old(own) && view == Cleared(old(view), old(ScopeOf(scope)))
    {
      var filter := ScopeOf(scope);
      if ScopeIsEmpty(filter) {
        return;
      }
      ghost var was := view;
      var rest := records.Keys;
      ClearedButAll(was, filter);
      while rest != {}
        invariant Valid() && own == old(own) && rest <= records.Keys
        invariant view == ClearedBut(was, filter, rest)
        decreases rest
      {
        var id :| id in rest;
        VisitForClear(id, filter, was, rest);
        rest := rest - {id};
      }
    }

    method VisitForClear(id: string, filter: Scope, ghost was: Records, ghost rest: set<string>)
      requires Valid() && id in rest && rest <= records.Keys && view == ClearedBut(was, filter, rest)
      modifies this
      ensures Valid() && own == old(own) && rest - {id} <= records.Keys
      ensures view == ClearedBut(was, filter, rest - {id})
    {
      assert Holds(id, records[id]);
      ClearOne(was, filter, rest, id);
      var hit := ScopeMatches(ScopeOf(records[id].scope), filter);
      if hit {
        Remove(id);
      }
    }

    method Remove(id: string)
      requires Valid()
      modifies this
      ensures Valid() && own == old(own) && records == old(records) - {id} && view == old(view) - {id}
    {
      records := records - {id};
      view := view - {id};
      forall k | k in records ensures Holds(k, records[k]) {
        assert old(Holds(k, records[k]));
      }
    }

    method Put(id: string, entry: EntryRef, ghost value: Entry)
      requires Valid() && entry.id == id && EntryOf(entry) == value
      modifies this
      ensures Valid() && own == old(own) + MapsOf(entry) && view == old(view)[id := value]
    {
      own := own + MapsOf(entry);
      view := view[id := value];
      records := records[id := entry];
      assert view.Keys == records.Keys;
      forall k | k in records ensures Holds(k, records[k]) {
        if k != id {
          assert old(Holds(k, records[k]));
        }
      }
    }
  }

  /**
    Callers never alias stored maps: writing through any map the store does not own, in particular
    one passed to Store or returned by Load, leaves the store as it was.
  */
  method CallerWrites(m: InmemMemory, g: GoMap, key: string, value: string)
    requires m.Valid() && g !in m.own
    modifies g
    ensures m.Valid() && m.view == old(m.view)
  {
    g.data := g.data[key := value];
    forall id | id in m.records ensures m.Holds(id, m.records[id]) {
      assert old(m.Holds(id, m.records[id]));
    }
  }
}
