/** The Cacheman store the caching layer writes through: a map from keys to
    entries, each with the value written and the TTL it was written with.
    Expiry is not modelled: an entry stays until it is deleted or cleared. */
module Store {
  import opened Json

  datatype Entry = Entry(value: Value, ttl: Value)

  type Entries = map<string, Entry>

  /** What a `get` reports: the stored value, or undefined for a key that
      has no entry. */
  function Read(m: Entries, key: string): (v: Value)
    ensures key !in m ==> v == Undefined
    ensures key in m ==> v == m[key].value
  {
    if key in m then m[key].value else Undefined
  }

  /** A Cacheman instance. */
  class Backend {
    var entries: Entries

    /** A fresh store holds nothing. */
    constructor ()
      ensures entries == map[]
    {
      entries := map[];
    }

    method Get(key: string) returns (v: Value)
      ensures v == Read(entries, key)
    {
      v := Read(entries, key);
    }

    method Set(key: string, value: Value, ttl: Value)
      modifies this
      ensures entries == old(entries)[key := Entry(value, ttl)]
    {
      entries := entries[key := Entry(value, ttl)];
    }

    method Del(key: string)
      modifies this
      ensures entries == old(entries) - {key}
    {
      entries := entries - {key};
    }

    method Clear()
      modifies this
      ensures entries == map[]
    {
      entries := map[];
    }
  }
}
