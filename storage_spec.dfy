/** The storage module's behaviour as functions of the stored table: what a
    TTL read returns and leaves behind, what a write stores, what a
    collection read returns; and the one-call properties of each. */
module StorageSpec {
  import opened JsValues

  /** 24 hours in milliseconds. */
  const CACHE_TTL: int := 24 * 60 * 60 * 1000
  const HISTORY_KEY: string := "pokemon_history"
  const FAVORITES_KEY: string := "pokemon_favorites"

  /** The content of one localStorage slot, as the module sees it once it has
      tried to parse it. */
  datatype Raw =
    | Blank        // the empty string, which `!storedItem` treats as missing
    | Unparseable  // text that `JSON.parse` rejects
    | NullDoc      // the text `null`: it parses, but has no properties
      /** Any other document. `value` and `timestamp` are its properties of
          those names; `None` is `undefined`, which is what a number, string,
          boolean or array document yields for both. */
    | Doc(value: Option<Json>, timestamp: Option<int>)

  /** The whole of localStorage. */
  type Store = map<string, Raw>

  /** What a TTL read found: `Miss` is the `null` the module returns for a
      missing or expired entry, `Hit` carries the document's `value`. */
  datatype Lookup = Miss | Hit(value: Option<Json>)

  /** `!storedItem`: the key is missing or holds the empty string. */
  predicate Absent(store: Store, key: string) {
    key !in store || store[key].Blank?
  }

  /** `data.timestamp && now - data.timestamp > CACHE_TTL`: a timestamp of
      0 is falsy, so such an entry never expires. */
  predicate Stale(raw: Raw, now: int) {
    raw.Doc? && raw.timestamp.Some? && raw.timestamp.value != 0
    && now - raw.timestamp.value > CACHE_TTL
  }

  /** The document `setItem` serialises: the value, and the clock reading
      only when a TTL is asked for. */
  function Entry(value: Json, useTTL: bool, now: int): (r: Raw)
    ensures r.Doc? && r.value == Some(value)
    ensures r.timestamp.Some? <==> useTTL
  {
    Doc(Some(value), if useTTL then Some(now) else None)
  }

  /** The table after `setItem(key, value, useTTL)` at time `now`. */
  function Written(store: Store, key: string, value: Json, useTTL: bool, now: int): (r: Store) {
    store[key := Entry(value, useTTL, now)]
  }

  /** What `getValidCache(key)` returns at time `now`, or what it throws. */
  function CacheLookup(store: Store, key: string, now: int): (r: Result<Lookup, Thrown>) {
    if key !in store then Ok(Miss)
    else
      match store[key]
      case Blank => Ok(Miss)
      case Unparseable => Err(SyntaxError)
      case NullDoc => Err(TypeError)
      case Doc(value, _) => if Stale(store[key], now) then Ok(Miss) else Ok(Hit(value))
  }

  /** The table after `getValidCache(key)` at time `now`: only a stale entry
      is removed, and only its own key. */
  function CacheAfter(store: Store, key: string, now: int): (r: Store) {
    if key in store && Stale(store[key], now) then store - {key} else store
  }

  /** What `getPersistentData(key)` returns: the stored `value` when it is
      truthy, `[]` in every other case, including those where parsing or a
      property access throws inside its `try`. */
  function PersistentValue(store: Store, key: string): (r: Json) {
    if key !in store then EmptyArray
    else
      match store[key]
      case Doc(Some(v), _) => if Truthy(v) then v else EmptyArray
      case _ => EmptyArray
  }

  /** A missing or empty entry reads as `null` and the table is untouched. */
  lemma AbsentKeyMisses(store: Store, key: string, now: int)
    requires Absent(store, key)
    ensures CacheLookup(store, key, now) == Ok(Miss)
    ensures CacheAfter(store, key, now) == store
  {
  }

  /** A read throws exactly when the entry does not parse or parses to
      `null`; a throwing read leaves the table untouched. */
  lemma LookupThrowsIffMalformed(store: Store, key: string, now: int)
    ensures CacheLookup(store, key, now).Err?
        <==> key in store && (store[key].Unparseable? || store[key].NullDoc?)
    ensures key in store && store[key].Unparseable? ==> CacheLookup(store, key, now) == Err(SyntaxError)
    ensures key in store && store[key].NullDoc? ==> CacheLookup(store, key, now) == Err(TypeError)
    ensures CacheLookup(store, key, now).Err? ==> CacheAfter(store, key, now) == store
  {
  }

  /** A stale entry reads as `null` and is the only thing removed. */
  lemma StaleEntryEvicted(store: Store, key: string, now: int)
    requires key in store && Stale(store[key], now)
    ensures CacheLookup(store, key, now) == Ok(Miss)
    ensures CacheAfter(store, key, now).Keys == store.Keys - {key}
    ensures forall k :: k in store && k != key ==> CacheAfter(store, key, now)[k] == store[k]
  {
  }

  /** A document that is not stale reads as its `value`, whatever wrote
      it, and the table is untouched. */
  lemma FreshEntryReturned(store: Store, key: string, now: int)
    requires key in store && store[key].Doc? && !Stale(store[key], now)
    ensures CacheLookup(store, key, now) == Ok(Hit(store[key].value))
    ensures CacheAfter(store, key, now) == store
  {
  }

  /** The table changes on a read only by the eviction of a stale entry. */
  lemma ReadChangesOnlyStaleKey(store: Store, key: string, now: int)
    ensures CacheAfter(store, key, now) != store
        <==> key in store && Stale(store[key], now)
    ensures CacheAfter(store, key, now) != store ==> CacheLookup(store, key, now) == Ok(Miss)
  {
  }

  /** An entry cached at time `t` is still returned at `t + CACHE_TTL`
      (the comparison is strict) and is evicted at any later time, unless
      `t` is the falsy timestamp 0. */
  lemma ExpiryBoundary(store: Store, key: string, value: Json, t: int, now: int)
    ensures CacheLookup(Written(store, key, value, true, t), key, t + CACHE_TTL) == Ok(Hit(Some(value)))
    ensures t != 0 && now > t + CACHE_TTL ==>
      CacheLookup(Written(store, key, value, true, t), key, now) == Ok(Miss)
      && CacheAfter(Written(store, key, value, true, t), key, now) == store - {key}
  {
  }

  /** A cache write followed, within the TTL, by a read returns the value
      written, and the read changes nothing. */
  lemma CacheRoundTrip(store: Store, key: string, value: Json, t: int, now: int)
    requires now - t <= CACHE_TTL
    ensures CacheLookup(Written(store, key, value, true, t), key, now) == Ok(Hit(Some(value)))
    ensures CacheAfter(Written(store, key, value, true, t), key, now) == Written(store, key, value, true, t)
  {
  }

  /** A value cached when the clock read 0 carries a falsy timestamp and is
      returned at every later time. */
  lemma ZeroTimestampNeverExpires(store: Store, key: string, value: Json, now: int)
    ensures CacheLookup(Written(store, key, value, true, 0), key, now) == Ok(Hit(Some(value)))
    ensures CacheAfter(Written(store, key, value, true, 0), key, now) == Written(store, key, value, true, 0)
  {
  }

  /** An entry written without a TTL has no timestamp: a TTL read returns
      it at any time and never evicts it. */
  lemma UntimedEntryNeverExpires(store: Store, key: string, value: Json, t: int, now: int)
    ensures CacheLookup(Written(store, key, value, false, t), key, now) == Ok(Hit(Some(value)))
    ensures CacheAfter(Written(store, key, value, false, t), key, now) == Written(store, key, value, false, t)
  {
  }

  /** `setItem` replaces whatever was at its key and changes no other key. */
  lemma WriteReplacesOnlyItsKey(store: Store, key: string, value: Json, useTTL: bool, now: int)
    ensures Written(store, key, value, useTTL, now).Keys == store.Keys + {key}
    ensures Written(store, key, value, useTTL, now)[key] == Entry(value, useTTL, now)
    ensures forall k :: k in store && k != key ==> Written(store, key, value, useTTL, now)[k] == store[k]
  {
  }

  /** A collection read always yields a truthy value, never throws, and is
      `[]` whenever the entry is missing, empty, unparseable, `null`, has
      no `value` or a falsy one. */
  lemma PersistentValueFallsBack(store: Store, key: string)
    ensures Truthy(PersistentValue(store, key))
    ensures !(key in store && store[key].Doc? && store[key].value.Some? && Truthy(store[key].value.value))
      ==> PersistentValue(store, key) == EmptyArray
  {
  }

  /** A collection written without a TTL reads back as itself when it is
      truthy, and as `[]` otherwise. */
  lemma PersistentRoundTrip(store: Store, key: string, data: Json, now: int)
    ensures Truthy(data) ==> PersistentValue(Written(store, key, data, false, now), key) == data
    ensures !Truthy(data) ==> PersistentValue(Written(store, key, data, false, now), key) == EmptyArray
  {
  }
}
