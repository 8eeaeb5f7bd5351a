# Caching fetch library — a Dafny model

The caching fetch library keeps one module-level cache of JSON responses keyed by URL. Each
entry (`CacheItem`) holds the parsed response body and the `Date.now()` time at which it was
stored. An entry is served while it is less than one minute old (`CACHE_EXPIRATION`,
60 000 ms). The library has five entry points:

- `useCachingFetch(url)` is a React hook. It exposes `{isLoading, data, error}`, and its effect
  serves a fresh entry or fetches, stores the result and updates the triple.
- `preloadCachingFetch(url)` always fetches and stores the result. A failure is swallowed.
- `serializeCache()` is `JSON.stringify` of the whole cache.
- `initializeCache(text)` parses a snapshot and merges it into the cache with `Object.assign`.
- `wipeCache()` deletes every key.

The model is organised as follows:

- `Wrappers`: `Option` and `Result`.
- `JsonText`: the JSON values the cache holds, plus a printer (`Stringify`) and a parser
  (`Parse`) for JSON text. They are proved to round-trip: `Parse(Stringify(v)) == Some(v)`.
- `Store`: the cache as a JavaScript object, with its keys in insertion order and a map from key
  to `CacheItem`. It also holds the freshness rule (`Lookup`), member assignment (`Put`), `delete`
  (`Delete`), `Object.assign` (`Assign`) and property enumeration (`Entries`).
- `Fetch`: `fetchData` over a fetch outcome given as input, and the hook's normalisation of
  thrown values into `Error`s.
- `Snapshot`: the text `serializeCache` produces, and the decoding `initializeCache` performs.
- `Coordinator`: one run of the hook's effect and one preload, stated on values, with the
  properties that relate successive runs.
- `CachingFetch`: the cache as a class whose methods update its fields in place. Each method is
  proved equal to the value-level definition above. A ghost log records every URL passed to
  `fetch`.
- `Scenarios`: the behaviours in `cachingFetch.test.ts`, replayed on a fresh `Cache`. A test's
  expectations are postconditions where the code meets them. Where the code does not, an
  as-written member states what the code does, and the Findings table pairs it with the
  corrected replay. A `fetch` that a test leaves unmocked resolves to `undefined`, so reading
  `response.ok` throws a TypeError (`Scenarios.UnmockedFetch`).

The network, the clock and React are inputs to the model:

- A fetch is a `FetchOutcome`: either a response (status and body text) or a rejection with a
  thrown value.
- The hook's effect reads `Date.now()` twice: once in the freshness test (`checkedAt`) and once
  for the timestamp written after the `await` (`settledAt`). Both are parameters.
- A run of the effect returns two bindings. `pending` is the triple while the fetch is
  outstanding. `settled` is the triple after the `finally` clause.

## Model

| member | source | states |
|---|---|---|
| JsonText.Stringify | caching-fetch-library/cachingFetch.ts:65 | `JSON.stringify` of any value is non-empty and begins with a character that starts a JSON value, never with blank space or a closing bracket; `JsonText.StringifyParseRoundTrip` shows `Parse` inverts it |
| JsonText.Parse | caching-fetch-library/cachingFetch.ts:69 | `JSON.parse` accepts only text whose first non-blank character can start a JSON value |
| JsonText.StringifyParseRoundTrip | caching-fetch-library/cachingFetch.ts:64-70 | `JSON.parse(JSON.stringify(v))` gives back `v` for every JSON value, so a snapshot reads back what was written |
| JsonText.ValueRoundTrip | caching-fetch-library/cachingFetch.ts:64-70 | parsing the printed form of any value followed by text that does not continue a number yields that value and leaves exactly that text unread |
| JsonText.CharsRoundTrip | caching-fetch-library/cachingFetch.ts:65 | the string escaping of `JSON.stringify` is undone by the string parser for every string, including quotes, backslashes and control characters |
| JsonText.IntRoundTrip | caching-fetch-library/cachingFetch.ts:65 | an integer's decimal text parses back to the same integer, negative values included |
| JsonText.RejectsNonJsonText | caching-fetch-library/cachingFetch.ts:69 | text whose first non-blank character cannot start a JSON value is refused by `JSON.parse` |
| Store.Lookup | caching-fetch-library/cachingFetch.ts:32 | a cached entry is served iff it is present and `now - timestamp < 60000`, and what is served is the stored data |
| Store.ExpiresAfterWindow | caching-fetch-library/cachingFetch.ts:15 | an entry stamped `t` is still served at `t + 59999` and no longer at `t + 60000` |
| Store.MissStaysMiss | caching-fetch-library/cachingFetch.ts:32 | while the cache is unchanged, a key that is not served at some time is not served at any later time |
| Store.Put | caching-fetch-library/cachingFetch.ts:40 | `cache[url] = item` replaces that key's item and no other, keeps an existing key in place, appends a new key at the end, and keeps the keys distinct and equal to the map's domain |
| Store.Delete | caching-fetch-library/cachingFetch.ts:74 | `delete cache[key]` removes that key and its item and nothing else; deleting the first key leaves the remaining keys in order (the general order statement is `Store.DeleteKeepsOrder`) |
| Store.DeleteKeepsOrder | caching-fetch-library/cachingFetch.ts:74 | `delete cache[key]` keeps every other key in its order, wherever the deleted key stood, and deleting an absent key changes no key |
| Store.Assign | caching-fetch-library/cachingFetch.ts:70 | `Object.assign` makes the items the old items overridden by the assigned pairs, the last pair for a key winning, and keeps the object well formed |
| Store.Entries | caching-fetch-library/cachingFetch.ts:65 | enumeration lists exactly one pair per key; which pair stands at each position is stated by `Store.EntriesAt` |
| Store.EntriesAt | caching-fetch-library/cachingFetch.ts:65 | enumeration lists the keys in insertion order, each paired with its item |
| Store.AssignEntriesKeys | caching-fetch-library/cachingFetch.ts:70 | assigning an object's enumerated entries into an empty object lists its keys in the same order |
| Store.AssignEntriesIntoEmpty | caching-fetch-library/cachingFetch.ts:68-75 | assigning an object's entries into an emptied cache rebuilds the object exactly, key order included |
| Store.AssignEntriesMerges | caching-fetch-library/cachingFetch.ts:70 | assigning a snapshot's entries into a live cache keeps the live keys that the snapshot lacks and takes the snapshot's item for every key it has |
| Fetch.IsOk | caching-fetch-library/cachingFetch.ts:19 | `response.ok` holds exactly when the status lies in 200..299 |
| Fetch.FetchData | caching-fetch-library/cachingFetch.ts:17-23 | a rejection of `fetch` propagates unchanged; a status outside 200..299 throws `HTTP error! status: <status>`; an ok response succeeds exactly when this integer-only parser accepts its body, with the parsed body as result |
| Fetch.AsError | caching-fetch-library/cachingFetch.ts:43 | a thrown `Error` is kept as it is; any other thrown value becomes `Error('An unknown error occurred')` |
| Fetch.HttpErrorNamesStatus | caching-fetch-library/cachingFetch.ts:20 | the HTTP error message names its status, which can be read back from the message |
| Fetch.HttpErrorsDistinguishable | caching-fetch-library/cachingFetch.ts:19-21 | two HTTP error messages are equal iff their statuses are, and none equals the unknown-error message |
| Snapshot.Serialize | caching-fetch-library/cachingFetch.ts:64-66 | `serializeCache()` writes a JSON object, text from `{` to `}`, and `{}` for an empty cache |
| Snapshot.Deserialize | caching-fetch-library/cachingFetch.ts:68-70 | text that is not JSON is refused; a snapshot is accepted exactly when its JSON root is an object whose every member reads as a `{data, timestamp}` item, and then it yields, in member order, each member's name paired with that item |
| Snapshot.SerializeRoundTrip | caching-fetch-library/cachingFetch.ts:64-70 | decoding `serializeCache()`'s text gives back every entry of the cache, in enumeration order |
| Snapshot.RestoreAfterWipe | caching-fetch-library/cachingFetch.ts:64-75 | serialise, wipe, initialise restores the cache exactly, keys, items and order |
| Snapshot.RestoreMerges | caching-fetch-library/cachingFetch.ts:68-71 | initialising a live cache from a snapshot of `t` leaves the live items overridden by `t`'s items |
| Snapshot.InvalidTextRejected | caching-fetch-library/cachingFetch.ts:69 | the text `invalid JSON` is refused |
| Coordinator.Effect | caching-fetch-library/cachingFetch.ts:30-50 | one run of the hook's effect keeps the cache well formed and changes no key other than `url` |
| Coordinator.Render | caching-fetch-library/cachingFetch.ts:30-50 | a render runs the effect on mount and when `url` differs from the previous render's, as the dependency list `[url]` says; a re-render with the same `url` fetches nothing and changes neither the cache nor the binding |
| Coordinator.RerenderKeepsExpiredData | caching-fetch-library/cachingFetch.ts:30-50 | after a mount that fetched and stored, a re-render with the same `url` at a time when the entry has expired still fetches nothing and keeps the fetched data |
| Coordinator.Preload | caching-fetch-library/cachingFetch.ts:55-62 | a preload keeps the cache well formed and changes no key other than `url` |
| Coordinator.FreshHitServesWithoutFetch | caching-fetch-library/cachingFetch.ts:32-34 | a fresh entry is served as `data` with no fetch, no loading state and the cache untouched |
| Coordinator.MissFetches | caching-fetch-library/cachingFetch.ts:37-46 | a missing or expired entry makes the effect fetch, with `isLoading` true while pending and false once settled, whatever the outcome |
| Coordinator.MissSuccessStores | caching-fetch-library/cachingFetch.ts:39-41 | a successful fetch stores `{data: result, timestamp: settle time}` under `url`, keeps an expired key's position, appends a new key after all the others, and sets `data` to the result |
| Coordinator.MissFailureRecordsError | caching-fetch-library/cachingFetch.ts:42-45 | a failed fetch leaves the cache unchanged and sets `error`: the HTTP message for a bad status, the thrown `Error` itself, or the unknown-error message for other thrown values |
| Coordinator.LifecycleFromInitial | caching-fetch-library/cachingFetch.ts:26-45 | from `{false, null, null}` the hook shows `{true, null, null}` while fetching and ends not loading, with an error exactly when the fetch failed, and then with `data` still null |
| Coordinator.NothingIsReset | caching-fetch-library/cachingFetch.ts:33-43 | `error` changes only on a failed fetch and `data` only on a hit or a successful fetch; neither is ever cleared |
| Coordinator.RepeatWithinWindowHits | caching-fetch-library/cachingFetch.ts:32-41 | after a successful fetch, a run less than 60 000 ms after the store serves the stored result without a fetch |
| Coordinator.RepeatAfterWindowFetches | caching-fetch-library/cachingFetch.ts:32-41 | a run 60 000 ms or more after the store fetches again |
| Coordinator.FailureIsRetried | caching-fetch-library/cachingFetch.ts:32-43 | a failed fetch caches nothing, so any later run for that URL fetches again |
| Coordinator.EmptyCacheAlwaysFetches | caching-fetch-library/cachingFetch.ts:32 | on an empty cache every run of the effect fetches |
| Coordinator.PreloadThenHookHits | caching-fetch-library/cachingFetch.ts:55-58 | a successful preload overwrites the entry even when it was fresh, and a run within the window afterwards is served from the cache without a fetch |
| Coordinator.PreloadFailureLeavesCache | caching-fetch-library/cachingFetch.ts:59-61 | a failed preload leaves the cache unchanged |
| CachingFetch.Cache.constructor | caching-fetch-library/cachingFetch.ts:14 | the cache starts as an empty object, and nothing has been fetched |
| CachingFetch.Cache.SetItem | caching-fetch-library/cachingFetch.ts:40 | the in-place member assignment leaves the cache equal to `Put` of the old cache |
| CachingFetch.Cache.DeleteItem | caching-fetch-library/cachingFetch.ts:74 | the in-place `delete` leaves the cache equal to `Delete` of the old cache |
| CachingFetch.Cache.WipeCache | caching-fetch-library/cachingFetch.ts:73-75 | deleting each enumerated key in turn leaves the cache empty and fetches nothing |
| CachingFetch.Cache.SerializeCache | caching-fetch-library/cachingFetch.ts:64-66 | returns the JSON text of the cache, which decodes back to the cache's entries, and changes nothing |
| CachingFetch.Cache.AssignPairs | caching-fetch-library/cachingFetch.ts:70 | assigning the parsed pairs one by one in place leaves the cache equal to `Assign` of the old cache, still well formed |
| CachingFetch.Cache.InitializeCache | caching-fetch-library/cachingFetch.ts:68-71 | a refused snapshot reports an error and leaves the cache unchanged; an accepted one is assigned entry by entry, leaving `Assign` of the old cache |
| CachingFetch.Cache.RunEffect | caching-fetch-library/cachingFetch.ts:30-50 | the in-place run of the effect returns the pending and settled bindings and leaves the cache as `Effect` states, logging a fetch of `url` exactly when it fetched |
| CachingFetch.Cache.PreloadCachingFetch | caching-fetch-library/cachingFetch.ts:55-62 | the in-place preload leaves the cache as `Preload` states, and logs one fetch of `url` |
| Scenarios.InitialStateAsWritten | caching-fetch-library/cachingFetch.test.ts:27-34 | the initial-state test as written: straight after the first render the effect has already set `isLoading`, so the hook shows `{true, null, null}` and not the `{false, null, null}` the test expects |
| Scenarios.FetchUpdatesState | caching-fetch-library/cachingFetch.test.ts:36-56 | on an empty cache a successful response shows loading and then `{false, payload, null}` |
| Scenarios.FetchErrorState | caching-fetch-library/cachingFetch.test.ts:58-73 | a rejected fetch ends in `{false, null, Error('Network error')}` and stores nothing |
| Scenarios.CachedWithinWindow | caching-fetch-library/cachingFetch.test.ts:75-103 | the test's `rerender()` is replayed as a second mount: within the window it is served the same state from the cache, one fetch in all. A same-url re-render runs no effect at all (`Coordinator.Render`), which also leaves the same state and one fetch |
| Scenarios.RefetchAfterExpiry | caching-fetch-library/cachingFetch.test.ts:105-146 | 61 seconds later a binding fetches again and shows the new payload, with two fetches in all |
| Scenarios.RerenderAfterExpiryAsWritten | caching-fetch-library/cachingFetch.test.ts:105-146 | the expiry test as written: the `rerender()` 61 seconds later runs no effect, so there is no second fetch and the hook keeps the first payload, not the second the test expects |
| Scenarios.PreloadThenRender | caching-fetch-library/cachingFetch.test.ts:150-168 | after a preload the hook shows the payload at once, never loading, with one fetch in all |
| Scenarios.PreloadErrorSwallowed | caching-fetch-library/cachingFetch.test.ts:170-181 | a failed preload returns normally and leaves the cache empty |
| Scenarios.SerializeWipeInitialize | caching-fetch-library/cachingFetch.test.ts:185-208 | serialise, wipe, initialise: the hook is served the restored payload with no further fetch |
| Scenarios.InvalidSnapshotRefused | caching-fetch-library/cachingFetch.test.ts:210-214 | `initializeCache('invalid JSON')` fails and the cache keeps its entries |
| Scenarios.WipeForcesRefetch | caching-fetch-library/cachingFetch.test.ts:217-258 | corrected replay: after two preloads and a wipe both URLs are fetched again, four fetches in all, and each hook settles with its payload. The two fetches after the wipe are given two further successful responses, which the test does not mock |
| Scenarios.WipeForcesRefetchAsWritten | caching-fetch-library/cachingFetch.test.ts:217-258 | the wipe test as written: the fetches after the wipe are unmocked, so both hooks show loading and fetch (four fetches in all) but settle with the TypeError and `data` null, not with the expected payloads |

## Left out

- React is not modelled beyond the `[url]` dependency list: rendering and `useState` batching
  are outside the model. `Coordinator.Render` decides whether a render runs the effect; each
  `RunEffect` of the class is one run of the effect, which React performs on mount and when
  `url` changes. The test at `cachingFetch.test.ts:105-146` is replayed as a second mount 61
  seconds later (see Findings).
- Coordinator.Effect: one run is atomic, from the freshness test to the `finally` clause. Other
  runs or preloads that interleave at the `await` are not modelled. The source has no guard
  against a late result for an earlier `url`. That result is applied to the binding, and the
  model does not show this.
- The network, the clock and the JSON body reader are inputs. `fetch` is a `FetchOutcome`, and
  both `Date.now()` readings are parameters. Timestamps are arbitrary integers, with no
  monotonic-clock assumption.
- Fetch.FetchData: a body that is not JSON fails with a fixed placeholder `Error` message. The
  real `SyntaxError` text belongs to the JavaScript engine.
- Fetch.FetchData: because `JsonText.Parse` reads integers only, an ok body holding a fraction
  or an exponent (`{"price":9.99}`) is a failure here: the hook records the placeholder error and
  caches nothing, where JavaScript caches the value.
- Fetch.FetchData: an ok body with a duplicate member name keeps both members in `data` here;
  JavaScript keeps one member, at the first position, with the last value. `serializeCache` then
  writes both members back. Reading an item's own `data` and `timestamp` does take the last
  value (`Snapshot.Field`).
- `console.error` in `preloadCachingFetch` (line 60) is logging only and is not modelled.
- JsonText.Parse: numbers are integers only. A fraction or exponent is refused. Floating point is
  left out, and so are two JavaScript behaviours: integers of 10^21 or more print in exponent
  form, and integers beyond 2^53 are rounded.
- JsonText.Parse: a `\u` escape naming a UTF-16 surrogate is refused. Strings here are
  sequences of Unicode scalar values, so lone or paired surrogate code units have no
  counterpart.
- Snapshot.Deserialize: the source merges whatever `JSON.parse` returns into the cache with
  `Object.assign`, unchecked. A string root would add index keys, and members that are not
  `{data, timestamp}` records would be stored as they are. The model accepts only an object
  whose every member has a `data` member and an integer `timestamp`. Any other snapshot is
  refused and leaves the cache unchanged, and extra members of an item are dropped.
- CachingFetch.Cache.InitializeCache: `JSON.parse` throws on text that is not JSON, and
  `initializeCache` does not catch it. The model returns `Some(MalformedSnapshot)` instead of
  throwing. The cache is unchanged in both.
- Store.Entries: JavaScript enumerates integer-like keys first, in ascending order. The model
  keeps plain insertion order for every key. Keys that name `Object.prototype` members, such as
  `__proto__` or `toString`, are treated as ordinary keys.
- The code does not do the following, and the model follows the code:
  - `preloadCachingFetch` fetches even when a fresh entry exists;
  - a cache hit does not clear `isLoading` or `error`;
  - a change of `url` does not reset `data` or `error` (`Coordinator.NothingIsReset`).

## Findings

| source | as written | input that shows it | evidently intended | confidence | as-written member | corrected member |
|---|---|---|---|---|---|---|
| caching-fetch-library/cachingFetch.test.ts:105-146 | the test advances the clock 61 seconds and calls `rerender()` with the same url, expecting a second fetch and `mockData2`; the effect's dependency list is `[url]` (`cachingFetch.ts:50`), so a re-render with an unchanged url runs no effect | one successful fetch of `mockData1`, then `rerender()` 61 000 ms later: no second fetch, and the hook still shows `mockData1` | an expired entry is refetched when the hook is mounted again (or its url changes), which is what a second mount 61 seconds later does | not executed | Scenarios.RerenderAfterExpiryAsWritten | Scenarios.RefetchAfterExpiry |
| caching-fetch-library/cachingFetch.test.ts:27-34 | right after `renderHook` the test expects `{isLoading: false, data: null, error: null}`; on a cache miss the effect calls `setIsLoading(true)` before its first `await` (`cachingFetch.ts:37`), which is why the test at :45 sees `isLoading` true at the same point | a first render on the empty cache: the hook shows `{true, null, null}` | the first state a test can observe on a miss is `{true, null, null}`, as :45 expects | not executed | Scenarios.InitialStateAsWritten | Scenarios.FetchUpdatesState |
| caching-fetch-library/cachingFetch.test.ts:217-258 | only two responses are mocked and the two preloads use both; after `jest.resetAllMocks()` (:17) the two later `fetch` calls resolve to `undefined`, reading `response.ok` (`cachingFetch.ts:19`) throws a TypeError, and line 43 records it as `error` | two preloads, a wipe, then the two hooks: each settles with `{false, null, TypeError}`, not its payload | two further successful responses mocked for the fetches after the wipe, so each hook settles with its payload | not executed | Scenarios.WipeForcesRefetchAsWritten | Scenarios.WipeForcesRefetch |
