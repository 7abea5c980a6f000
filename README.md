# StorageModule of the Pokédex client, in Dafny

This project models `StorageModule` (`shared.js`), the small key/value layer that
the Pokédex pages use on top of the browser's `localStorage`. It has two jobs:

- a **TTL cache** (`getCache` / `setCache`): a write stores `{value, timestamp}`;
  a read returns `value` unless the timestamp is truthy and older than
  `CACHE_TTL` (24 h in ms), in which case the read deletes the key and answers
  `null`;
- **persistent collections** (`getFavorites` / `setFavorites`, `getHistory` /
  `setHistory`): written without a timestamp, read back with `[]` as the fallback
  for anything missing, unreadable or falsy;

plus `remove(key)` and `clearAll()`.

Layout:

- `values.dfy`, module `JsValues`: `Option`, `Result`, JSON values with
  JavaScript truthiness, and the two exceptions a read can throw.
- `storage_spec.dfy`, module `StorageSpec`: the constants, the stored slot
  `Raw` (empty string, unparseable text, the document `null`, or a document with
  optional `value` and `timestamp`), and the behaviour of each operation as a
  function of the table, with the one-call properties as lemmas.
- `storage_module.dfy`, module `Storage`: class `StorageModule`, whose field
  `store: map<string, Raw>` is localStorage; each exported operation is a method
  that reads or updates it in place and is proved against `StorageSpec`.
- `sessions.dfy`, module `Sessions`: sequences of calls (`Step`, `Run`) and the
  properties that hold over any such sequence, proved by induction.

The clock (`new Date().getTime()`) is the `now` argument of the methods that
read it. JavaScript quirks are kept explicit: the empty string counts as a
missing entry; a timestamp of `0` is falsy, so such an entry never expires;
a falsy `value` reads back from a collection as `[]`; and `getValidCache` has no
`try`, so an entry that is not JSON throws a `SyntaxError`, and the document
`null` throws a `TypeError`, both modelled as `Err` results that leave the table
unchanged. Only the collection read catches parse errors; the TTL read does
not, and the model keeps that difference rather than treating corrupt cache
content as a miss. `Lookup.Miss` is the `null` the TTL read
returns; a cached JSON `null` comes back as `Hit(Some(JNull))`, which a
JavaScript caller cannot tell apart from a miss.

## Model

| member | source | states |
|---|---|---|
| StorageSpec.Entry | shared.js:44-51 | the stored document holds the value, and a timestamp exactly when a TTL is asked for |
| StorageSpec.AbsentKeyMisses | shared.js:19-23 | a missing key or an empty string reads as `null` and the table is unchanged |
| StorageSpec.LookupThrowsIffMalformed | shared.js:25-29 | a TTL read throws exactly when the entry is not JSON (`SyntaxError`) or is `null` (`TypeError`), and then changes nothing |
| StorageSpec.StaleEntryEvicted | shared.js:28-33 | an entry with a truthy timestamp older than `CACHE_TTL` reads as `null`; exactly its key is removed and every other entry is kept |
| StorageSpec.FreshEntryReturned | shared.js:28-35 | any document that is not stale, whoever wrote it, reads as its `value` and the table is unchanged |
| StorageSpec.ReadChangesOnlyStaleKey | shared.js:19-35 | a TTL read changes the table if and only if the entry is stale, and then it answered `null` |
| StorageSpec.ExpiryBoundary | shared.js:28-35 | a value cached at `t` is returned at `t + 86400000` (strict `>`) and, for `t != 0`, evicted at any later time, leaving the table as before the write minus that key |
| StorageSpec.CacheRoundTrip | shared.js:19-53 | `setCache(k, v)` at `t` then `getCache(k)` at `now - t <= CACHE_TTL` returns `v` and leaves the table unchanged |
| StorageSpec.ZeroTimestampNeverExpires | shared.js:29 | a value cached when the clock read 0 has a falsy timestamp and is returned at every time |
| StorageSpec.UntimedEntryNeverExpires | shared.js:28-51 | an entry written without a TTL is returned by a TTL read at any time and never evicted |
| StorageSpec.WriteReplacesOnlyItsKey | shared.js:44-54 | `setItem` overwrites its key unconditionally and keeps every other key and value |
| StorageSpec.PersistentValueFallsBack | shared.js:59-70 | a collection read is always truthy and is `[]` whenever the entry is missing, empty, unparseable, `null`, valueless or falsy |
| StorageSpec.PersistentRoundTrip | shared.js:44-70 | a collection written without a TTL reads back as itself when truthy, as `[]` otherwise |
| Storage.StorageModule.GetValidCache | shared.js:19-36 | returns the `CacheLookup` result and leaves the `CacheAfter` table; a hit changes nothing |
| Storage.StorageModule.SetItem | shared.js:44-54 | the new table is the old one with the document at `key` replaced; no other key changes |
| Storage.StorageModule.GetPersistentData | shared.js:59-70 | returns `PersistentValue` without changing the table; the result is truthy, and anything but `[]` is the stored `value` |
| Storage.StorageModule.GetCache | shared.js:74 | the TTL read, with the same result and new table as `getValidCache` |
| Storage.StorageModule.SetCache | shared.js:75 | a write with `timestamp: now` |
| Storage.StorageModule.GetFavorites | shared.js:78 | the collection read at `pokemon_favorites`; truthy, changes nothing |
| Storage.StorageModule.SetFavorites | shared.js:79 | an untimed write at `pokemon_favorites` only |
| Storage.StorageModule.GetHistory | shared.js:80 | the collection read at `pokemon_history`; truthy, changes nothing |
| Storage.StorageModule.SetHistory | shared.js:81 | an untimed write at `pokemon_history` only |
| Storage.StorageModule.Remove | shared.js:83 | deletes exactly `key`; every other entry is kept |
| Storage.StorageModule.ClearAll | shared.js:84 | the whole table is empty afterwards |
| Storage.FavoritesAndCacheSession | shared.js:74-79 | a caller of the methods alone can prove that favorites read back, a cached record is returned at the TTL boundary and evicted one millisecond later |
| Sessions.StepKeepsWellFormed | shared.js:44-84 | every operation leaves a table of documents a table of documents |
| Sessions.RunKeepsWellFormed | shared.js:44-84 | any sequence of operations keeps a table of documents a table of documents |
| Sessions.ModuleWrittenReadsNeverThrow | shared.js:19-53 | on a table written only by the module since it was empty, a TTL read never throws |
| Sessions.UnstampedKeyStaysUntimed | shared.js:44-51 | a key that no `setCache` targets never acquires a timestamp over any sequence of calls |
| Sessions.CollectionsNeverExpire | shared.js:78-81 | favorites and history written through their setters are never evicted by a TTL read, at any time |
| Sessions.UntimedEntrySurvives | shared.js:28-53 | an untimed entry survives every call that does not overwrite, remove or clear it, TTL reads included |
| Sessions.FavoritesReadBackLastWrite | shared.js:78-79 | `getFavorites` after `setFavorites(xs)` and any calls not touching the favorites returns `xs` (or `[]` if falsy) |
| Sessions.HistoryReadsBackLastWrite | shared.js:80-81 | `getHistory` after `setHistory(xs)` and any calls not touching the history returns `xs` (or `[]` if falsy) |
| Sessions.AbsentKeyStaysAbsent | shared.js:44-84 | a missing key stays missing through any calls that do not write it (`setCache` at it, or the setter of its collection); removals, clears and reads included |
| Sessions.ClearedKeyStaysMissing | shared.js:84 | after `clearAll`, a key no later call writes is missing, reads as `null` from the cache and `[]` as a collection, whatever removals, clears and reads follow |

## Left out

- The `console.log` and `console.error` calls: diagnostics with no effect on any result.
- The real clock: every reading is the `now` argument; the untimed setters pass `0`, which is never read.
- JSON serialisation: values are JSON values already; `JSON.stringify` of `undefined`, functions, `NaN` or cyclic data is not modelled, and numbers are integers (no fractions, `NaN` or `-0`).
- Timestamps that are not whole numbers (a string or a fraction written into a slot by other code) are not modelled; the module itself only writes clock readings.
- Browser behaviour of localStorage (quota errors, origin scoping, events from other tabs, coercion of values to strings) is not modelled: it is a finite map.
- The IIFE wrapper and the `KEYS` object it exports: the keys are the constants `HISTORY_KEY` and `FAVORITES_KEY`.
- The history cap, favorites toggling, the fetch layer, battle scoring and page rendering live outside `shared.js` and are not part of this model.
