/** The host application's key-value cache (Laravel's `Cache` facade), of
    which the client uses one key. Expiry is not modelled: an entry stays
    until `Forget` removes it, which stands for its TTL running out or an
    eviction. */
module Cache {
  import opened Wrappers

  /** A cached string and the TTL, in seconds, it was stored with. */
  datatype Entry = Entry(value: string, ttl: int)

  /** `Cache::get($key)`: the stored value, or `null`. */
  function Lookup(entries: map<string, Entry>, key: string): (r: Option<string>)
    ensures r.Some? <==> key in entries
    ensures r.Some? ==> r.value == entries[key].value
  {
    if key in entries then Some(entries[key].value) else None
  }

  class Store {
    var entries: map<string, Entry>

    /** A new, empty cache (as after `Cache::flush()`). */
    constructor ()
      ensures entries == map[]
    {
      entries := map[];
    }

    /** `Cache::get($key)`. */
    function Get(key: string): (r: Option<string>)
      reads this
      ensures r == Lookup(entries, key)
      ensures r.Some? <==> key in entries
      ensures r.Some? ==> r.value == entries[key].value
    {
      Lookup(entries, key)
    }

    /** `Cache::put($key, $value, $ttl)`: overwrites the one key. */
    method Put(key: string, value: string, ttl: int)
      modifies this
      ensures entries == old(entries)[key := Entry(value, ttl)]
      ensures Lookup(entries, key) == Some(value)
    {
      entries := entries[key := Entry(value, ttl)];
    }

    /** The entry under `key` expires or is evicted. */
    method Forget(key: string)
      modifies this
      ensures entries == old(entries) - {key}
      ensures Lookup(entries, key) == None
    {
      entries := entries - {key};
    }
  }
}
