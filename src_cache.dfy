/** src/cache.js: a thin wrapper over the store that passes keys unchanged
    and treats two TTL values specially when writing. */
module SrcCache {
  import opened Json
  import opened Store

  /** The TTL a `set` hands to the store, or None when it writes nothing:
      `null` means do not store, `0` is rewritten to `-1`, and every other
      TTL (undefined included) is passed on as given. */
  function StoredTtl(ttl: Value): (t: Option<Value>)
    ensures t.None? <==> ttl == Null
    ensures ttl == Num(0) ==> t == Some(Num(-1))
    ensures ttl != Null && ttl != Num(0) ==> t == Some(ttl)
  {
    if ttl == Null then None
    else if ttl == Num(0) then Some(Num(-1))
    else Some(ttl)
  }

  /** The store after `set(key, value, ttl)`. */
  function AfterSet(m: Entries, key: string, value: Value, ttl: Value): Entries
  {
    match StoredTtl(ttl)
    case None => m
    case Some(t) => m[key := Entry(value, t)]
  }

  class Cache {
    const backend: Backend

    constructor ()
      ensures fresh(backend) && backend.entries == map[]
    {
      backend := new Backend();
    }

    method Get(key: string) returns (v: Value)
      ensures v == Read(backend.entries, key)
    {
      v := backend.Get(key);
    }

    method Set(key: string, value: Value, ttl: Value)
      modifies backend
      ensures backend.entries == AfterSet(old(backend.entries), key, value, ttl)
    {
      if ttl == Null {
        return;
      }
      var t := ttl;
      if t == Num(0) {
        t := Num(-1);
      }
      backend.Set(key, value, t);
    }

    method Del(key: string)
      modifies backend
      ensures backend.entries == old(backend.entries) - {key}
    {
      backend.Del(key);
    }

    method Clear()
      modifies backend
      ensures backend.entries == map[]
    {
      backend.Clear();
    }
  }

  // ---------------------------------------------------------------------
  // What a write does

  /** A `set` with a TTL other than null is read back by the next `get` of
      that key, and leaves every other key as it was. */
  lemma ReadAfterSet(m: Entries, key: string, value: Value, ttl: Value, other: string)
    requires ttl != Null
    ensures Read(AfterSet(m, key, value, ttl), key) == value
    ensures other != key ==> Read(AfterSet(m, key, value, ttl), other) == Read(m, other)
  {
  }

  /** A `set` with TTL null changes nothing. */
  lemma SetNullWritesNothing(m: Entries, key: string, value: Value)
    ensures AfterSet(m, key, value, Null) == m
  {
  }

  /** A `set` with TTL 0 stores the entry with TTL -1. */
  lemma SetZeroStoresMinusOne(m: Entries, key: string, value: Value)
    ensures key in AfterSet(m, key, value, Num(0))
    ensures AfterSet(m, key, value, Num(0))[key] == Entry(value, Num(-1))
  {
  }

  /** After `del(k)` a `get(k)` finds nothing and other keys are as they were. */
  lemma ReadAfterDel(m: Entries, key: string, other: string)
    ensures Read(m - {key}, key) == Undefined
    ensures other != key ==> Read(m - {key}, other) == Read(m, other)
  {
  }
}
