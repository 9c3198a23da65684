/** `utils/cache.ts`: the Redis key-value cache, as a map from keys to entries with
    the expiry each entry was written with. Entries are kept as the values they
    encode: the source stores `JSON.stringify(x)` and reads back `JSON.parse`. */
module Cache {
  import opened Wrappers

  /** `expiry || 3600`: an absent or zero expiry becomes one hour. */
  function EffectiveTtl(expiry: Option<int>): (t: int)
    ensures expiry.Some? && expiry.value != 0 ==> t == expiry.value
    ensures expiry.None? || expiry.value == 0 ==> t == 3600
  {
    if expiry.Some? && expiry.value != 0 then expiry.value else 3600
  }

  class KvCache<V> {
    var entries: map<string, V>
    var ttls: map<string, int>

    constructor ()
      ensures entries == map[] && ttls == map[]
    {
      entries := map[];
      ttls := map[];
    }

    /** `getCache(key)`: the entry, or `null` when there is none. */
    method Get(key: string) returns (r: Option<V>)
      ensures key in entries ==> r == Some(entries[key])
      ensures key !in entries ==> r == None
    {
      if key in entries {
        r := Some(entries[key]);
      } else {
        r := None;
      }
    }

    /** `setCache(key, value, expiry)`. */
    method Set(key: string, value: V, expiry: Option<int>)
      modifies this
      ensures entries == old(entries)[key := value]
      ensures ttls == old(ttls)[key := EffectiveTtl(expiry)]
    {
      entries := entries[key := value];
      ttls := ttls[key := EffectiveTtl(expiry)];
    }
  }

  /** The entry a read would find. */
  function Lookup<V>(entries: map<string, V>, key: string): (r: Option<V>)
    ensures r.Some? <==> key in entries
    ensures r.Some? ==> r.value == entries[key]
  {
    if key in entries then Some(entries[key]) else None
  }
}
