/** lib-src/cache.js: the store wrapper that puts every key under the
    `cachegoose:` namespace and passes TTLs on unchanged. */
module LibSrcCache {
  import opened Json
  import opened Store

  const Prefix: string := "cachegoose:"

  /** The store key for a user key. */
  function Prefixed(key: string): (k: string)
    ensures |k| == |Prefix| + |key| && k[..|Prefix|] == Prefix && k[|Prefix|..] == key
  {
    Prefix + key
  }

  class Cache {
    const backend: Backend

    constructor ()
      ensures fresh(backend) && backend.entries == map[]
    {
      backend := new Backend();
    }

    method Get(key: string) returns (v: Value)
      ensures v == Read(backend.entries, Prefixed(key))
    {
      v := backend.Get(Prefixed(key));
    }

    method Set(key: string, value: Value, ttl: Value)
      modifies backend
      ensures backend.entries == old(backend.entries)[Prefixed(key) := Entry(value, ttl)]
    {
      backend.Set(Prefixed(key), value, ttl);
    }

    method Del(key: string)
      modifies backend
      ensures backend.entries == old(backend.entries) - {Prefixed(key)}
    {
      backend.Del(Prefixed(key));
    }

    /** Clearing uses no prefix: it empties the whole store. */
    method Clear()
      modifies backend
      ensures backend.entries == map[]
    {
      backend.Clear();
    }
  }

  /** Distinct user keys live under distinct store keys. */
  lemma PrefixedInjective(a: string, b: string)
    requires Prefixed(a) == Prefixed(b)
    ensures a == b
  {
    assert a == Prefixed(a)[|Prefix|..] == Prefixed(b)[|Prefix|..] == b;
  }

  /** Through the prefix, a write is read back and other keys are untouched. */
  lemma ReadAfterSet(m: Entries, key: string, value: Value, ttl: Value, other: string)
    ensures Read(m[Prefixed(key) := Entry(value, ttl)], Prefixed(key)) == value
    ensures other != key ==> Read(m[Prefixed(key) := Entry(value, ttl)], Prefixed(other)) == Read(m, Prefixed(other))
  {
    if other != key && Prefixed(other) == Prefixed(key) {
      PrefixedInjective(other, key);
    }
  }

  /** After `del(k)` a `get(k)` misses, and other user keys are untouched. */
  lemma ReadAfterDel(m: Entries, key: string, other: string)
    ensures Read(m - {Prefixed(key)}, Prefixed(key)) == Undefined
    ensures other != key ==> Read(m - {Prefixed(key)}, Prefixed(other)) == Read(m, Prefixed(other))
  {
    if other != key && Prefixed(other) == Prefixed(key) {
      PrefixedInjective(other, key);
    }
  }
}
