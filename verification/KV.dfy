/** The mutex-guarded key-value store the run and stream registries are kept in. */
module KVStore {
  import opened Wrappers

  function Lookup<K, V>(m: map<K, V>, key: K): Option<V> {
    if key in m then Some(m[key]) else None
  }

  /** Remove `key` only while it still maps to `expected`. */
  function DeletedIf<K, V(==)>(m: map<K, V>, key: K, expected: V): (r: map<K, V>)
    ensures r == if Lookup(m, key) == Some(expected) then m - {key} else m
    ensures forall k :: k in m && (k != key || m[k] != expected) ==> k in r && r[k] == m[k]
    ensures Lookup(r, key) != Some(expected)
  {
    if key in m && m[key] == expected then m - {key} else m
  }

  /** Each method body runs under the store's mutex, so each is one atomic action on `data`. */
  class KV<K(==), V(==)> {
    var data: map<K, V>

    constructor ()
      ensures data == map[]
    {
      data := map[];
    }

    method Set(key: K, value: V)
      modifies this
      ensures data == old(data)[key := value]
    {
      data := data[key := value];
    }

    method Get(key: K) returns (r: Option<V>)
      ensures r == Lookup(data, key)
    {
      r := if key in data then Some(data[key]) else None;
    }

    method Delete(key: K)
      modifies this
      ensures data == old(data) - {key}
    {
      data := data - {key};
    }

    method Keys() returns (keys: seq<K>)
      ensures forall k :: k in keys <==> k in data
      ensures |keys| == |data|
    {
      keys := [];
      var rest := data.Keys;
      while rest != {}
        invariant rest <= data.Keys
        invariant forall k :: k in keys <==> k in data && k !in rest
        invariant |keys| + |rest| == |data|
        decreases |rest|
      {
        var k :| k in rest;
        keys := keys + [k];
        rest := rest - {k};
      }
    }

    method DeleteIf(key: K, expected: V) returns (deleted: bool)
      modifies this
      ensures data == DeletedIf(old(data), key, expected)
      ensures deleted <==> Lookup(old(data), key) == Some(expected)
    {
      if key !in data || data[key] != expected {
        return false;
      }
      data := data - {key};
      return true;
    }

    method Pop(key: K) returns (r: Option<V>)
      modifies this
      ensures r == Lookup(old(data), key) && data == old(data) - {key}
    {
      r := if key in data then Some(data[key]) else None;
      if r.Some? {
        data := data - {key};
      }
    }

    method Len() returns (n: nat)
      ensures n == |data|
    {
      n := |data|;
    }

    method Clear()
      modifies this
      ensures data == map[]
    {
      data := map[];
    }
  }
}
