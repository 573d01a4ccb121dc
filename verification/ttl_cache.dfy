/**
 * The result caches of the task routes (`cache` for GET /tasks and
 * `statsCache` for GET /tasks/stats/summary): a map from a key to the stored
 * result and the time it was stored. An entry is served only while it is
 * younger than 30 seconds; expired entries stay in the map until the next
 * store for the same key overwrites them.
 */
module TtlCache {
  import opened JsValues

  /** `30 * 1000` milliseconds. */
  const Ttl: int := 30 * 1000

  datatype Entry<T> = Entry(data: T, timestamp: int)

  /**
   * `cache.has(key)` and `now - timestamp < ttl`: the stored data when the
   * entry exists and is fresh, nothing otherwise.
   */
  function Lookup<T>(entries: map<string, Entry<T>>, key: string, now: int): (r: Option<T>)
    ensures r.Some? <==> key in entries && now - entries[key].timestamp < Ttl
    ensures r.Some? ==> r.value == entries[key].data
  {
    if key in entries && now - entries[key].timestamp < Ttl then Some(entries[key].data) else None
  }

  /** `cache.set(key, {data, timestamp: now})`: that key now holds the new entry, every other key is as it was. */
  function Store<T>(entries: map<string, Entry<T>>, key: string, data: T, now: int): (r: map<string, Entry<T>>)
    ensures r.Keys == entries.Keys + {key}
    ensures r[key] == Entry(data, now)
    ensures forall k :: k in entries && k != key ==> r[k] == entries[k]
  {
    entries[key := Entry(data, now)]
  }

  /** An entry is fresh for 30 000 ms after it is stored: a hit just before, a miss from then on. */
  lemma FreshExactlyBeforeTtl<T>(entries: map<string, Entry<T>>, key: string, data: T, stored: int, now: int)
    ensures stored <= now < stored + Ttl ==> Lookup(Store(entries, key, data, stored), key, now) == Some(data)
    ensures stored + Ttl <= now ==> Lookup(Store(entries, key, data, stored), key, now) == None
  {
  }

  /** Storing under one key changes no lookup under any other key. */
  lemma StoreLeavesOtherKeys<T>(entries: map<string, Entry<T>>, key: string, data: T, stored: int, other: string, now: int)
    requires other != key
    ensures Lookup(Store(entries, key, data, stored), other, now) == Lookup(entries, other, now)
  {
  }

  /** A store replaces an expired entry: the key is fresh again with the new data. */
  lemma StoreRefreshes<T>(entries: map<string, Entry<T>>, key: string, data: T, now: int)
    ensures Lookup(Store(entries, key, data, now), key, now) == Some(data)
  {
  }

  /** One of the module-level `Map`s of the routes, with the two operations the handlers use. */
  class Cache<T> {
    var entries: map<string, Entry<T>>

    /** `new Map()` */
    constructor ()
      ensures entries == map[]
    {
      entries := map[];
    }

    /** `cache.has(key)`, `cache.get(key)` and the freshness test; the map is only read. */
    method Get(key: string, now: int) returns (r: Option<T>)
      ensures r == Lookup(entries, key, now)
    {
      r := None;
      if key in entries {
        var entry := entries[key];
        if now - entry.timestamp < Ttl {
          r := Some(entry.data);
        }
      }
    }

    /** `cache.set(key, { data, timestamp: now })` */
    method Set(key: string, data: T, now: int)
      modifies this
      ensures entries == Store(old(entries), key, data, now)
    {
      entries := entries[key := Entry(data, now)];
    }
  }
}
