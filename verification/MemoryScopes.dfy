/** Memory scopes: the flat metadata of a scope, and what it means for a stored scope to match a filter. */
module MemoryScopes {

  const USER_KEY := "user_id"
  const TENANT_KEY := "tenant_id"
  const AGENT_KEY := "agent_id"

  /** A scope as a value; a nil tag map and an empty one are the same. */
  datatype Scope = Scope(userId: string, tenantId: string, agentId: string, tags: map<string, string>)

  predicate Reserved(key: string) {
    key == USER_KEY || key == TENANT_KEY || key == AGENT_KEY
  }

  /** The value of one metadata key: a field when the key is reserved, otherwise a tag. Empty fields are absent. */
  predicate HasKey(s: Scope, key: string) {
    if key == USER_KEY then s.userId != ""
    else if key == TENANT_KEY then s.tenantId != ""
    else if key == AGENT_KEY then s.agentId != ""
    else key in s.tags
  }

  function ValueAt(s: Scope, key: string): string
    requires HasKey(s, key)
  {
    if key == USER_KEY then s.userId
    else if key == TENANT_KEY then s.tenantId
    else if key == AGENT_KEY then s.agentId
    else s.tags[key]
  }

  function Meta(s: Scope): map<string, string> {
    map key | key in s.tags.Keys + {USER_KEY, TENANT_KEY, AGENT_KEY} && HasKey(s, key) :: ValueAt(s, key)
  }

  lemma KeysDiffer()
    ensures USER_KEY != TENANT_KEY && USER_KEY != AGENT_KEY && TENANT_KEY != AGENT_KEY
  {
    assert |USER_KEY| == 7 && |TENANT_KEY| == 9 && |AGENT_KEY| == 8;
  }

  /** Only the tags that are not reserved. */
  ghost predicate PlainTags(tags: map<string, string>, out: map<string, string>) {
    && (forall k :: k in out <==> k in tags && !Reserved(k))
    && (forall k :: k in out ==> out[k] == tags[k])
  }

  function WithField(out: map<string, string>, key: string, value: string): map<string, string> {
    if value != "" then out[key := value] else out
  }

  lemma FieldsOverPlainTags(s: Scope, plain: map<string, string>)
    requires PlainTags(s.tags, plain)
    ensures WithField(WithField(WithField(plain, USER_KEY, s.userId), TENANT_KEY, s.tenantId), AGENT_KEY, s.agentId) == Meta(s)
  {
    KeysDiffer();
  }

  /** Builds the flat map the way the code does: tags that are not reserved, then the fields over them. */
  method ScopeMetadata(s: Scope) returns (out: map<string, string>)
    ensures out == Meta(s)
  {
    out := map[];
    var rest := s.tags.Keys;
    while rest != {}
      invariant rest <= s.tags.Keys
      invariant forall k :: k in out <==> k in s.tags && k !in rest && !Reserved(k)
      invariant forall k :: k in out ==> out[k] == s.tags[k]
      decreases |rest|
    {
      var k :| k in rest;
      rest := rest - {k};
      if k == USER_KEY || k == TENANT_KEY || k == AGENT_KEY {
        continue;
      }
      out := out[k := s.tags[k]];
    }
    FieldsOverPlainTags(s, out);
    if s.userId != "" {
      out := out[USER_KEY := s.userId];
    }
    if s.tenantId != "" {
      out := out[TENANT_KEY := s.tenantId];
    }
    if s.agentId != "" {
      out := out[AGENT_KEY := s.agentId];
    }
  }

  predicate Matches(stored: Scope, filter: Scope) {
    forall key :: key in Meta(filter) ==> key in Meta(stored) && Meta(stored)[key] == Meta(filter)[key]
  }

  method ScopeMatches(stored: Scope, filter: Scope) returns (ok: bool)
    ensures ok <==> Matches(stored, filter)
  {
    var metaStored := ScopeMetadata(stored);
    var metaFilter := ScopeMetadata(filter);
    var rest := metaFilter.Keys;
    while rest != {}
      invariant rest <= metaFilter.Keys
      invariant forall k :: k in metaFilter && k !in rest ==> k in metaStored && metaStored[k] == metaFilter[k]
      decreases |rest|
    {
      var key :| key in rest;
      if key !in metaStored || metaStored[key] != metaFilter[key] {
        return false;
      }
      rest := rest - {key};
    }
    return true;
  }

  predicate ScopeIsEmpty(s: Scope) {
    s.userId == "" && s.tenantId == "" && s.agentId == "" && |s.tags| == 0
  }

  // ----- what matching means

  /** The documented reading: each non-empty field and each tag of the filter must be equal. Reserved tags are ignored. */
  predicate FieldsMatch(stored: Scope, filter: Scope) {
    && (filter.userId != "" ==> stored.userId == filter.userId)
    && (filter.tenantId != "" ==> stored.tenantId == filter.tenantId)
    && (filter.agentId != "" ==> stored.agentId == filter.agentId)
    && forall k :: k in filter.tags && !Reserved(k) ==> k in stored.tags && stored.tags[k] == filter.tags[k]
  }

  lemma MatchingFields(stored: Scope, filter: Scope)
    requires Matches(stored, filter)
    ensures FieldsMatch(stored, filter)
  {
    KeysDiffer();
    forall k | k in filter.tags && !Reserved(k) ensures k in stored.tags && stored.tags[k] == filter.tags[k] {
      assert k in Meta(filter);
    }
    assert filter.userId != "" ==> USER_KEY in Meta(filter);
    assert filter.tenantId != "" ==> TENANT_KEY in Meta(filter);
    assert filter.agentId != "" ==> AGENT_KEY in Meta(filter);
  }

  lemma FieldsThatMatch(stored: Scope, filter: Scope)
    requires FieldsMatch(stored, filter)
    ensures Matches(stored, filter)
  {
    KeysDiffer();
  }

  lemma MatchesIffFieldsMatch(stored: Scope, filter: Scope)
    ensures Matches(stored, filter) <==> FieldsMatch(stored, filter)
  {
    if Matches(stored, filter) {
      MatchingFields(stored, filter);
    } else if FieldsMatch(stored, filter) {
      FieldsThatMatch(stored, filter);
    }
  }

  /** Matching is a preorder, narrower scopes first. */
  lemma MatchingIsAPreorder(a: Scope, b: Scope, c: Scope)
    ensures Matches(a, a)
    ensures Matches(a, b) && Matches(b, c) ==> Matches(a, c)
  {
    if Matches(a, b) && Matches(b, c) {
      forall key | key in Meta(c) ensures key in Meta(a) && Meta(a)[key] == Meta(c)[key] {
        assert key in Meta(b);
      }
    }
  }

  /** Two scopes match each other exactly when they have the same metadata. */
  lemma MatchingBothWaysIffSameMeta(a: Scope, b: Scope)
    ensures Matches(a, b) && Matches(b, a) <==> Meta(a) == Meta(b)
  {
  }

  lemma MetaIsEmptyIff(s: Scope)
    ensures Meta(s) == map[] <==>
      s.userId == "" && s.tenantId == "" && s.agentId == "" && forall k :: k in s.tags ==> Reserved(k)
  {
    if Meta(s) == map[] {
      assert HasKey(s, USER_KEY) ==> USER_KEY in Meta(s);
      assert HasKey(s, TENANT_KEY) ==> TENANT_KEY in Meta(s);
      assert HasKey(s, AGENT_KEY) ==> AGENT_KEY in Meta(s);
      forall k | k in s.tags ensures Reserved(k) {
        assert HasKey(s, k) ==> k in Meta(s);
      }
    } else {
      var k :| k in Meta(s);
    }
  }

  /**
    The guard of Clear lets through a scope that matches everything exactly when the fields are
    empty and there are tags, all of them reserved.
  */
  lemma GuardMissesIff(s: Scope)
    ensures !ScopeIsEmpty(s) && Meta(s) == map[] <==>
      s.userId == "" && s.tenantId == "" && s.agentId == "" && s.tags != map[] && forall k :: k in s.tags ==> Reserved(k)
  {
    MetaIsEmptyIff(s);
    assert |s.tags| == 0 <==> s.tags == map[];
  }

  lemma EmptyMetaMatchesAll(stored: Scope, filter: Scope)
    requires Meta(filter) == map[]
    ensures Matches(stored, filter)
  {
  }
}
