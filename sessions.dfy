/** Sequences of calls to the storage module, one after another on one
    thread, each with its own clock reading. A call that throws leaves the
    table as it was and the next call goes ahead. */
module Sessions {
  import opened JsValues
  import opened StorageSpec

  /** One call to an exported operation of the module. */
  datatype Call =
    | GetCache(key: string, now: int)
    | SetCache(key: string, value: Json, now: int)
    | GetFavorites
    | SetFavorites(data: Json)
    | GetHistory
    | SetHistory(data: Json)
    | Remove(key: string)
    | ClearAll

  /** The table after one call. */
  function Step(store: Store, c: Call): (r: Store) {
    match c
    case GetCache(key, now) => CacheAfter(store, key, now)
    case SetCache(key, value, now) => Written(store, key, value, true, now)
    case GetFavorites => store
    case SetFavorites(data) => Written(store, FAVORITES_KEY, data, false, 0)
    case GetHistory => store
    case SetHistory(data) => Written(store, HISTORY_KEY, data, false, 0)
    case Remove(key) => store - {key}
    case ClearAll => map[]
  }

  /** The table after a sequence of calls, first to last. */
  function Run(store: Store, calls: seq<Call>): (r: Store)
    decreases |calls|
  {
    if calls == [] then store else Run(Step(store, calls[0]), calls[1..])
  }

  /** Every entry is a document, as every write of the module leaves it. */
  ghost predicate WellFormed(store: Store) {
    forall k :: k in store ==> store[k].Doc?
  }

  /** Whether a call writes a timestamp at `key`. */
  predicate Stamps(c: Call, key: string) {
    c.SetCache? && c.key == key
  }

  /** Whether a call stores a document at `key`. */
  predicate Writes(c: Call, key: string) {
    match c
    case SetCache(k, _, _) => k == key
    case SetFavorites(_) => key == FAVORITES_KEY
    case SetHistory(_) => key == HISTORY_KEY
    case _ => false
  }

  /** Whether a call can replace or delete the entry at `key`; a TTL read
      is not among them, since the entries in question carry no timestamp. */
  predicate Overwrites(c: Call, key: string) {
    Writes(c, key) || c == Remove(key) || c == ClearAll
  }

  /** The entry at `key`, if any, has no timestamp. */
  predicate Untimed(store: Store, key: string) {
    key in store ==> !(store[key].Doc? && store[key].timestamp.Some?)
  }

  /** Every operation keeps the table well formed. */
  lemma StepKeepsWellFormed(store: Store, c: Call)
    requires WellFormed(store)
    ensures WellFormed(Step(store, c))
  {
  }

  /** Any run keeps the table well formed. */
  lemma {:induction false} RunKeepsWellFormed(store: Store, calls: seq<Call>)
    requires WellFormed(store)
    ensures WellFormed(Run(store, calls))
    decreases |calls|
  {
    if calls != [] {
      StepKeepsWellFormed(store, calls[0]);
      RunKeepsWellFormed(Step(store, calls[0]), calls[1..]);
    }
  }

  /** On a table the module alone has written, a TTL read never throws:
      its missing `try` only matters for content written by someone else. */
  lemma {:induction false} ModuleWrittenReadsNeverThrow(calls: seq<Call>, key: string, now: int)
    ensures CacheLookup(Run(map[], calls), key, now).Ok?
  {
    RunKeepsWellFormed(map[], calls);
    var s := Run(map[], calls);
    if key in s {
      assert s[key].Doc?;
    }
  }

  /** A key that no call stamps stays without a timestamp. */
  lemma {:induction false} UnstampedKeyStaysUntimed(store: Store, calls: seq<Call>, key: string)
    requires Untimed(store, key)
    requires forall i :: 0 <= i < |calls| ==> !Stamps(calls[i], key)
    ensures Untimed(Run(store, calls), key)
    decreases |calls|
  {
    if calls != [] {
      assert !Stamps(calls[0], key);
      assert Untimed(Step(store, calls[0]), key);
      forall i | 0 <= i < |calls[1..]|
        ensures !Stamps(calls[1..][i], key)
      {
        assert calls[1..][i] == calls[i + 1];
      }
      UnstampedKeyStaysUntimed(Step(store, calls[0]), calls[1..], key);
    }
  }

  /** Favorites and history, written only through their own setters, never
      carry a timestamp, so no TTL read at any time evicts them. */
  lemma CollectionsNeverExpire(calls: seq<Call>, now: int)
    requires forall i :: 0 <= i < |calls| ==>
      !Stamps(calls[i], FAVORITES_KEY) && !Stamps(calls[i], HISTORY_KEY)
    ensures CacheAfter(Run(map[], calls), FAVORITES_KEY, now) == Run(map[], calls)
    ensures CacheAfter(Run(map[], calls), HISTORY_KEY, now) == Run(map[], calls)
  {
    UnstampedKeyStaysUntimed(map[], calls, FAVORITES_KEY);
    UnstampedKeyStaysUntimed(map[], calls, HISTORY_KEY);
  }

  /** An untimed entry outlives every call that does not overwrite it. */
  lemma {:induction false} UntimedEntrySurvives(store: Store, calls: seq<Call>, key: string, data: Json)
    requires key in store && store[key] == Doc(Some(data), None)
    requires forall i :: 0 <= i < |calls| ==> !Overwrites(calls[i], key)
    ensures key in Run(store, calls) && Run(store, calls)[key] == Doc(Some(data), None)
    decreases |calls|
  {
    if calls != [] {
      var next := Step(store, calls[0]);
      assert !Overwrites(calls[0], key);
      assert key in next && next[key] == Doc(Some(data), None);
      forall i | 0 <= i < |calls[1..]|
        ensures !Overwrites(calls[1..][i], key)
      {
        assert calls[1..][i] == calls[i + 1];
      }
      UntimedEntrySurvives(next, calls[1..], key, data);
    }
  }

  /** After `setFavorites(data)`, every later `getFavorites` returns `data`
      (or `[]` if it is falsy) until the favorites are overwritten, removed
      or cleared, whatever cache reads, cache writes to other keys or
      history writes come in between, and at whatever time. */
  lemma FavoritesReadBackLastWrite(store: Store, data: Json, later: seq<Call>)
    requires forall i :: 0 <= i < |later| ==> !Overwrites(later[i], FAVORITES_KEY)
    ensures Truthy(data) ==> PersistentValue(Run(store, [SetFavorites(data)] + later), FAVORITES_KEY) == data
    ensures !Truthy(data) ==> PersistentValue(Run(store, [SetFavorites(data)] + later), FAVORITES_KEY) == EmptyArray
  {
    var calls := [SetFavorites(data)] + later;
    assert calls[0] == SetFavorites(data) && calls[1..] == later;
    UntimedEntrySurvives(Step(store, SetFavorites(data)), later, FAVORITES_KEY, data);
  }

  /** The same for `setHistory` and `getHistory`. */
  lemma HistoryReadsBackLastWrite(store: Store, data: Json, later: seq<Call>)
    requires forall i :: 0 <= i < |later| ==> !Overwrites(later[i], HISTORY_KEY)
    ensures Truthy(data) ==> PersistentValue(Run(store, [SetHistory(data)] + later), HISTORY_KEY) == data
    ensures !Truthy(data) ==> PersistentValue(Run(store, [SetHistory(data)] + later), HISTORY_KEY) == EmptyArray
  {
    var calls := [SetHistory(data)] + later;
    assert calls[0] == SetHistory(data) && calls[1..] == later;
    UntimedEntrySurvives(Step(store, SetHistory(data)), later, HISTORY_KEY, data);
  }

  /** After `clearAll`, a key that no later call writes reads as missing,
      whatever removals, clears and reads come after. */
  lemma {:induction false} ClearedKeyStaysMissing(store: Store, later: seq<Call>, key: string, now: int)
    requires forall i :: 0 <= i < |later| ==> !Writes(later[i], key)
    ensures key !in Run(store, [ClearAll] + later)
    ensures CacheLookup(Run(store, [ClearAll] + later), key, now) == Ok(Miss)
    ensures PersistentValue(Run(store, [ClearAll] + later), key) == EmptyArray
  {
    var calls := [ClearAll] + later;
    assert calls[0] == ClearAll && calls[1..] == later;
    AbsentKeyStaysAbsent(map[], later, key);
  }

  /** A missing key stays missing through calls that do not write it;
      removals and clears can only keep it missing. */
  lemma {:induction false} AbsentKeyStaysAbsent(store: Store, calls: seq<Call>, key: string)
    requires key !in store
    requires forall i :: 0 <= i < |calls| ==> !Writes(calls[i], key)
    ensures key !in Run(store, calls)
    decreases |calls|
  {
    if calls != [] {
      assert !Writes(calls[0], key);
      forall i | 0 <= i < |calls[1..]|
        ensures !Writes(calls[1..][i], key)
      {
        assert calls[1..][i] == calls[i + 1];
      }
      AbsentKeyStaysAbsent(Step(store, calls[0]), calls[1..], key);
    }
  }
}
