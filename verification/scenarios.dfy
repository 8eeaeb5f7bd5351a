/**
  The behaviours exercised by the library's test suite, replayed on a fresh `Cache`: each
  hook render is one run of the effect from the initial binding, and each mocked `fetch`
  result is an outcome given as input. A `fetch` the test leaves unmocked is `UnmockedFetch`.
*/
module Scenarios {
  import opened Wrappers
  import opened JsonText
  import opened Store
  import opened Fetch
  import opened Snapshot
  import opened Coordinator
  import opened CachingFetch

  const ApiUrl: string := "https://randomapi.com/api/6de6abfedb24f889e0b5f675edc50deb"

  /** A mocked response: status 200 with the payload as its JSON body. */
  function OkResponse(payload: Json): (o: FetchOutcome)
    ensures FetchData(o) == Success(payload)
  {
    StringifyParseRoundTrip(payload);
    Responded(200, Stringify(payload))
  }

  /**
    Stands for the message of the TypeError thrown when `fetchData` reads `ok` of `undefined`;
    ECMAScript leaves its wording to the engine.
  */
  const UndefinedResponseMessage: string := "Cannot read properties of undefined (reading 'ok')"

  /**
    A `fetch` with no mocked result left: after `jest.resetAllMocks()` it resolves to
    `undefined`, reading `response.ok` throws a TypeError, and `fetchData` rejects with that
    `Error`, as it would had `fetch` itself rejected with it.
  */
  function UnmockedFetch(): (o: FetchOutcome)
    ensures FetchData(o) == Failure(ThrownError(Error(UndefinedResponseMessage)))
  {
    Rejected(ThrownError(Error(UndefinedResponseMessage)))
  }

  /**
    The initial-state test as written: straight after the first render the effect has already
    set `isLoading` (its fetch is left unmocked), so the hook shows `{true, null, null}` and not
    the `{false, null, null}` the test expects.
  */
  method InitialStateAsWritten(now: int) returns (shown: BindingState)
    ensures shown == BindingState(true, JNull, None)
    ensures shown != InitialState
  {
    var cache := new Cache();
    var settled;
    shown, settled := cache.RunEffect(ApiUrl, InitialState, now, UnmockedFetch(), now);
  }

  /** A first render shows loading, and the settled binding holds the fetched payload. */
  method FetchUpdatesState(payload: Json, now: int) returns (pending: BindingState, settled: BindingState)
    ensures pending == BindingState(true, JNull, None)
    ensures settled == BindingState(false, payload, None)
  {
    var cache := new Cache();
    pending, settled := cache.RunEffect(ApiUrl, InitialState, now, OkResponse(payload), now);
  }

  /** A rejected fetch ends in `{isLoading: false, data: null, error}` and stores nothing. */
  method FetchErrorState(now: int) returns (pending: BindingState, settled: BindingState, stored: bool)
    ensures pending.isLoading
    ensures settled == BindingState(false, JNull, Some(Error("Network error")))
    ensures !stored
  {
    var cache := new Cache();
    pending, settled := cache.RunEffect(ApiUrl, InitialState, now, Rejected(ThrownError(Error("Network error"))), now);
    stored := ApiUrl in cache.items;
  }

  /** A second binding within the window gets the same state and no second fetch. */
  method CachedWithinWindow(payload: Json, now: int) returns (first: BindingState, second: BindingState, ghost fetches: nat)
    ensures first == BindingState(false, payload, None)
    ensures second == first
    ensures fetches == 1
  {
    var cache := new Cache();
    var _, s1 := cache.RunEffect(ApiUrl, InitialState, now, OkResponse(payload), now);
    var _, s2 := cache.RunEffect(ApiUrl, InitialState, now, Rejected(ThrownOther), now);
    first, second, fetches := s1, s2, |cache.fetched|;
  }

  /** 61 seconds later the entry has expired: a new binding fetches again and shows the new payload. */
  method RefetchAfterExpiry(payload1: Json, payload2: Json, now: int)
    returns (first: BindingState, second: BindingState, ghost fetches: nat)
    ensures first == BindingState(false, payload1, None)
    ensures second == BindingState(false, payload2, None)
    ensures fetches == 2
  {
    var cache := new Cache();
    var _, s1 := cache.RunEffect(ApiUrl, InitialState, now, OkResponse(payload1), now);
    var later := now + 61 * 1000;
    var _, s2 := cache.RunEffect(ApiUrl, InitialState, later, OkResponse(payload2), later);
    first, second, fetches := s1, s2, |cache.fetched|;
  }

  /**
    The expiry test as written: after 61 seconds it re-renders the same hook with the same
    url, so the effect does not run, nothing is fetched and the binding keeps the first
    payload, even though the cached entry has expired.
  */
  lemma RerenderAfterExpiryAsWritten(payload1: Json, payload2: Json, now: int)
    ensures var r1 := Render(Empty, None, ApiUrl, InitialState, now, OkResponse(payload1), now);
      var later := now + 61 * 1000;
      var r2 := Render(r1.table, Some(ApiUrl), ApiUrl, r1.settled, later, OkResponse(payload2), later);
      && r1.fetched && !r2.fetched
      && Lookup(r2.table, ApiUrl, later) == None
      && r2.settled == BindingState(false, payload1, None)
      && (payload1 != payload2 ==> r2.settled != BindingState(false, payload2, None))
  {
    RerenderKeepsExpiredData(Empty, ApiUrl, InitialState, now, OkResponse(payload1), now,
                             now + 61 * 1000, OkResponse(payload2), now + 61 * 1000);
  }

  /** After a preload the hook is served from the cache at once: no loading state, one fetch in all. */
  method PreloadThenRender(payload: Json, now: int) returns (pending: BindingState, settled: BindingState, ghost fetches: nat)
    ensures pending == settled == BindingState(false, payload, None)
    ensures fetches == 1
  {
    var cache := new Cache();
    cache.PreloadCachingFetch(ApiUrl, OkResponse(payload), now);
    pending, settled := cache.RunEffect(ApiUrl, InitialState, now, Rejected(ThrownOther), now);
    fetches := |cache.fetched|;
  }

  /** A failed preload returns normally and leaves the cache empty. */
  method PreloadErrorSwallowed(now: int) returns (size: nat, ghost fetches: nat)
    ensures size == 0
    ensures fetches == 1
  {
    var cache := new Cache();
    cache.PreloadCachingFetch(ApiUrl, Rejected(ThrownError(Error("Network error"))), now);
    size, fetches := |cache.keys|, |cache.fetched|;
  }

  /** Serialise, wipe, initialise: the restored entry is served without another fetch. */
  method SerializeWipeInitialize(payload: Json, now: int)
    returns (error: Option<SnapshotError>, settled: BindingState, ghost fetches: nat)
    ensures error == None
    ensures settled == BindingState(false, payload, None)
    ensures fetches == 1
  {
    var cache := new Cache();
    cache.PreloadCachingFetch(ApiUrl, OkResponse(payload), now);
    ghost var before := cache.Contents();
    var text := cache.SerializeCache();
    cache.WipeCache();
    error := cache.InitializeCache(text);
    AssignEntriesIntoEmpty(before);
    assert cache.Contents() == before;
    var pending;
    pending, settled := cache.RunEffect(ApiUrl, InitialState, now, Rejected(ThrownOther), now);
    fetches := |cache.fetched|;
  }

  /** Text that is not JSON is refused and the cache keeps its entries. */
  method InvalidSnapshotRefused(payload: Json, now: int) returns (error: Option<SnapshotError>, kept: bool)
    ensures error == Some(MalformedSnapshot)
    ensures kept
  {
    var cache := new Cache();
    cache.PreloadCachingFetch(ApiUrl, OkResponse(payload), now);
    InvalidTextRejected();
    error := cache.InitializeCache("invalid JSON");
    kept := ApiUrl in cache.items && cache.items[ApiUrl].data == payload;
  }

  /**
    After a wipe both preloaded keys are fetched again: four fetches in all. The two fetches
    after the wipe are given two further successful responses, which the test does not mock.
  */
  method WipeForcesRefetch(payload1: Json, payload2: Json, now: int)
    returns (pending1: BindingState, pending2: BindingState, settled1: BindingState, settled2: BindingState, ghost fetches: nat)
    ensures pending1.isLoading && pending2.isLoading
    ensures settled1 == BindingState(false, payload1, None)
    ensures settled2 == BindingState(false, payload2, None)
    ensures fetches == 4
  {
    var cache := new Cache();
    var otherUrl := ApiUrl + "?param=1";
    cache.PreloadCachingFetch(ApiUrl, OkResponse(payload1), now);
    cache.PreloadCachingFetch(otherUrl, OkResponse(payload2), now);
    cache.WipeCache();
    pending1, settled1 := cache.RunEffect(ApiUrl, InitialState, now, OkResponse(payload1), now);
    pending2, settled2 := cache.RunEffect(otherUrl, InitialState, now, OkResponse(payload2), now);
    fetches := |cache.fetched|;
  }

  /**
    The wipe test as written: its two mocked responses are used by the preloads, so the two
    fetches after the wipe are unmocked. Both hooks still show loading and fetch, four fetches
    in all, but they settle with the TypeError and no data, not with the payloads the test expects.
  */
  method WipeForcesRefetchAsWritten(payload1: Json, payload2: Json, now: int)
    returns (pending1: BindingState, pending2: BindingState, settled1: BindingState, settled2: BindingState, ghost fetches: nat)
    ensures pending1.isLoading && pending2.isLoading
    ensures settled1 == settled2 == BindingState(false, JNull, Some(Error(UndefinedResponseMessage)))
    ensures settled1 != BindingState(false, payload1, None) && settled2 != BindingState(false, payload2, None)
    ensures fetches == 4
  {
    var cache := new Cache();
    var otherUrl := ApiUrl + "?param=1";
    cache.PreloadCachingFetch(ApiUrl, OkResponse(payload1), now);
    cache.PreloadCachingFetch(otherUrl, OkResponse(payload2), now);
    cache.WipeCache();
    pending1, settled1 := cache.RunEffect(ApiUrl, InitialState, now, UnmockedFetch(), now);
    pending2, settled2 := cache.RunEffect(otherUrl, InitialState, now, UnmockedFetch(), now);
    fetches := |cache.fetched|;
  }
}
