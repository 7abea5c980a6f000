/** The storage module itself: one object whose `store` field is the
    browser's localStorage, with the module's operations as methods that
    read and update it in place. The clock is the `now` argument. */
module Storage {
  import opened JsValues
  import opened StorageSpec

  class StorageModule {
    /** The contents of localStorage. */
    var store: Store

    constructor (initial: Store)
      ensures store == initial
    {
      store := initial;
    }

    /** `getValidCache`: returns the cached value, `null` for a missing,
        empty or expired entry (removing an expired one), and throws on an
        entry that does not parse or parses to `null`; it has no `try`. */
    method GetValidCache(key: string, now: int) returns (r: Result<Lookup, Thrown>)
      modifies this
      ensures r == CacheLookup(old(store), key, now)
      ensures store == CacheAfter(old(store), key, now)
      ensures r.Ok? && r.value.Hit? ==> store == old(store)
    {
      if key !in store || store[key].Blank? {
        return Ok(Miss);
      }
      var data := store[key];
      if data.Unparseable? {
        return Err(SyntaxError);
      }
      if data.NullDoc? {
        return Err(TypeError);
      }
      if data.timestamp.Some? && data.timestamp.value != 0
        && now - data.timestamp.value > CACHE_TTL
      {
        store := store - {key};
        return Ok(Miss);
      }
      return Ok(Hit(data.value));
    }

    /** `setItem`: stores `{value}`, plus `timestamp: now` when `useTTL`,
        over whatever was at `key`. Without a TTL the clock is not read. */
    method SetItem(key: string, value: Json, useTTL: bool, now: int)
      modifies this
      ensures store == Written(old(store), key, value, useTTL, now)
      ensures store[key].Doc? && store[key].value == Some(value)
      ensures store[key].timestamp.Some? <==> useTTL
      ensures forall k :: k != key ==> (k in store <==> k in old(store))
      ensures forall k :: k in old(store) && k != key ==> store[k] == old(store)[k]
    {
      var stamp: Option<int> := None;
      if useTTL {
        stamp := Some(now);
      }
      store := store[key := Doc(Some(value), stamp)];
    }

    /** `getPersistentData`: the stored `value`, or `[]` when the entry is
        missing or empty, fails to parse (the error is caught), or its
        `value` is falsy. It never changes the table. */
    method GetPersistentData(key: string) returns (r: Json)
      ensures r == PersistentValue(store, key)
      ensures Truthy(r)
      ensures r != EmptyArray ==> key in store && store[key] == Doc(Some(r), store[key].timestamp)
    {
      if key !in store || store[key].Blank? {
        return EmptyArray;
      }
      var data := store[key];
      if !data.Doc? {
        // `JSON.parse` or the property access threw; the `catch` answers `[]`.
        return EmptyArray;
      }
      if data.value.Some? && Truthy(data.value.value) {
        return data.value.value;
      }
      return EmptyArray;
    }

    /** `getCache`: the TTL read. */
    method GetCache(key: string, now: int) returns (r: Result<Lookup, Thrown>)
      modifies this
      ensures r == CacheLookup(old(store), key, now)
      ensures store == CacheAfter(old(store), key, now)
    {
      r := GetValidCache(key, now);
    }

    /** `setCache`: a write with a timestamp. */
    method SetCache(key: string, value: Json, now: int)
      modifies this
      ensures store == Written(old(store), key, value, true, now)
    {
      SetItem(key, value, true, now);
    }

    /** `getFavorites`: the favorites collection, `[]` by default. */
    method GetFavorites() returns (r: Json)
      ensures r == PersistentValue(store, FAVORITES_KEY)
      ensures Truthy(r)
    {
      r := GetPersistentData(FAVORITES_KEY);
    }

    /** `setFavorites`: replaces the favorites collection, without a
        timestamp; no other key changes. */
    method SetFavorites(data: Json)
      modifies this
      ensures store == Written(old(store), FAVORITES_KEY, data, false, 0)
    {
      // The clock argument is ignored when no TTL is asked for.
      SetItem(FAVORITES_KEY, data, false, 0);
    }

    /** `getHistory`: the history collection, `[]` by default. */
    method GetHistory() returns (r: Json)
      ensures r == PersistentValue(store, HISTORY_KEY)
      ensures Truthy(r)
    {
      r := GetPersistentData(HISTORY_KEY);
    }

    /** `setHistory`: replaces the history collection, without a timestamp;
        no other key changes. */
    method SetHistory(data: Json)
      modifies this
      ensures store == Written(old(store), HISTORY_KEY, data, false, 0)
    {
      SetItem(HISTORY_KEY, data, false, 0);
    }

    /** `remove`: deletes one key and nothing else. */
    method Remove(key: string)
      modifies this
      ensures store == old(store) - {key}
      ensures key !in store
      ensures forall k :: k in old(store) && k != key ==> k in store && store[k] == old(store)[k]
    {
      store := store - {key};
    }

    /** `clearAll`: empties the whole of localStorage, not only the
        module's keys. */
    method ClearAll()
      modifies this
      ensures store == map[]
    {
      store := map[];
    }
  }

  /** A caller's view of one session: a favorites write is read back as
      written (when truthy), a cache write is returned within the TTL and
      gone after it, and the favorites survive the cache's eviction. */
  method FavoritesAndCacheSession(m: StorageModule, favs: Json, key: string, record: Json, t: int)
    requires Truthy(favs) && key != FAVORITES_KEY && t != 0
    modifies m
    ensures key !in m.store
  {
    m.SetFavorites(favs);
    m.SetCache(key, record, t);
    var hit := m.GetCache(key, t + CACHE_TTL);
    assert hit == Ok(Hit(Some(record)));
    var miss := m.GetCache(key, t + CACHE_TTL + 1);
    assert miss == Ok(Miss);
    var back := m.GetFavorites();
    assert back == favs;
  }
}
