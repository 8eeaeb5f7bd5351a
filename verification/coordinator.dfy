/**
  The fetch coordination of the caching fetch library, stated on values: what one run of the
  hook's effect and one preload do to the cache and to the hook's `{isLoading, data, error}`
  triple. The `Cache` class in module CachingFetch performs these steps in place.
*/
module Coordinator {
  import opened Wrappers
  import opened JsonText
  import opened Store
  import opened Fetch

  /** The hook's state triple. */
  datatype BindingState = BindingState(isLoading: bool, data: Json, error: Option<Error>)

  /** `useState(false)`, `useState(null)`, `useState(null)`. */
  const InitialState: BindingState := BindingState(false, JNull, None)

  /**
    One run of the effect: the cache afterwards, the binding while the fetch is pending, the
    binding once it has settled, and whether `fetch` was called.
  */
  datatype EffectRun = EffectRun(table: Table, pending: BindingState, settled: BindingState, fetched: bool)

  /**
    The effect body of `useCachingFetch(url)` started from binding `state`: the freshness test
    at `checkedAt`; on a miss the fetch, whose result is stored with the `Date.now()` reading
    `settledAt`, or whose failure becomes the binding's error.
  */
  function Effect(t: Table, url: string, state: BindingState, checkedAt: int, outcome: FetchOutcome, settledAt: int): (r: EffectRun)
    ensures WellFormed(t) ==> WellFormed(r.table)
    ensures forall k :: k != url ==> (k in r.table.items <==> k in t.items)
    ensures forall k :: k != url && k in t.items ==> r.table.items[k] == t.items[k]
  {
    match Lookup(t, url, checkedAt)
    case Some(data) =>
      var served := state.(data := data);
      EffectRun(t, served, served, false)
    case None =>
      var loading := state.(isLoading := true);
      match FetchData(outcome)
      case Success(result) =>
        EffectRun(Put(t, url, CacheItem(result, settledAt)), loading, loading.(data := result, isLoading := false), true)
      case Failure(reason) =>
        EffectRun(t, loading, loading.(error := Some(AsError(reason)), isLoading := false), true)
  }

  /**
    One render of `useCachingFetch(url)`. React runs the effect when the component mounts
    (`previousUrl` is `None`) and when `url` differs from the previous render's, as the
    dependency list `[url]` says; any other re-render leaves the cache and the binding as they are.
  */
  function Render(t: Table, previousUrl: Option<string>, url: string, state: BindingState,
                  checkedAt: int, outcome: FetchOutcome, settledAt: int): (r: EffectRun)
    ensures previousUrl == Some(url) ==> !r.fetched && r.table == t && r.pending == state && r.settled == state
    ensures previousUrl != Some(url) ==> r == Effect(t, url, state, checkedAt, outcome, settledAt)
  {
    if previousUrl == Some(url) then EffectRun(t, state, state, false)
    else Effect(t, url, state, checkedAt, outcome, settledAt)
  }

  /** `preloadCachingFetch(url)`: always fetches; stores the result on success, changes nothing on failure. */
  function Preload(t: Table, url: string, outcome: FetchOutcome, settledAt: int): (r: Table)
    ensures WellFormed(t) ==> WellFormed(r)
    ensures forall k :: k != url ==> (k in r.items <==> k in t.items)
    ensures forall k :: k != url && k in t.items ==> r.items[k] == t.items[k]
  {
    match FetchData(outcome)
    case Success(result) => Put(t, url, CacheItem(result, settledAt))
    case Failure(_) => t
  }

  // ---------------------------------------------------------------------------
  // One run of the effect
  // ---------------------------------------------------------------------------

  /** A fresh hit is served without a fetch: the cache is untouched and `isLoading` is never set. */
  lemma FreshHitServesWithoutFetch(t: Table, url: string, state: BindingState, checkedAt: int, outcome: FetchOutcome, settledAt: int)
    requires url in t.items && checkedAt - t.items[url].timestamp < CacheExpiration
    ensures var r := Effect(t, url, state, checkedAt, outcome, settledAt);
      && !r.fetched
      && r.table == t
      && r.pending == r.settled
      && r.settled == state.(data := t.items[url].data)
  {
  }

  /**
    A miss (no entry, or one at least `CacheExpiration` old) fetches, shows `isLoading` while the
    fetch is pending, and clears it once the fetch has settled, whatever its outcome.
  */
  lemma MissFetches(t: Table, url: string, state: BindingState, checkedAt: int, outcome: FetchOutcome, settledAt: int)
    requires url !in t.items || checkedAt - t.items[url].timestamp >= CacheExpiration
    ensures var r := Effect(t, url, state, checkedAt, outcome, settledAt);
      && r.fetched
      && r.pending == state.(isLoading := true)
      && !r.settled.isLoading
  {
  }

  /**
    A miss with a successful fetch overwrites exactly `cache[url]` with the result and the
    settle time; an expired entry is superseded in place, keeping its position.
  */
  lemma MissSuccessStores(t: Table, url: string, state: BindingState, checkedAt: int, outcome: FetchOutcome, settledAt: int)
    requires Lookup(t, url, checkedAt) == None
    requires FetchData(outcome).Success?
    ensures var r := Effect(t, url, state, checkedAt, outcome, settledAt);
      var result := FetchData(outcome).value;
      && r.table.items == t.items[url := CacheItem(result, settledAt)]
      && (url in t.items ==> r.table.keys == t.keys)
      && (url !in t.items ==> r.table.keys == t.keys + [url])
      && r.settled == state.(isLoading := false, data := result)
  {
  }

  /**
    A failed fetch leaves the cache as it was and records the error: `HTTP error! status: <code>`
    for a response that is not ok, the thrown `Error` for a rejection, and
    `An unknown error occurred` for a thrown value that is not an `Error`.
  */
  lemma MissFailureRecordsError(t: Table, url: string, state: BindingState, checkedAt: int, outcome: FetchOutcome, settledAt: int)
    requires Lookup(t, url, checkedAt) == None
    requires FetchData(outcome).Failure?
    ensures var r := Effect(t, url, state, checkedAt, outcome, settledAt);
      && r.table == t
      && r.settled == state.(isLoading := false, error := r.settled.error)
      && r.settled.error.Some?
      && (outcome.Responded? && !IsOk(outcome.status) ==>
            r.settled.error.value.message == HttpErrorMessage(outcome.status))
      && (outcome == Rejected(ThrownOther) ==> r.settled.error.value.message == UnknownErrorMessage)
      && (outcome.Rejected? && outcome.reason.ThrownError? ==> r.settled.error.value == outcome.reason.error)
  {
  }

  /**
    From the initial state the binding goes to `{isLoading: true, data: null, error: null}` and
    then to `{false, result, null}` or `{false, null, error}`; a fresh hit goes straight to
    `{false, data, null}`.
  */
  lemma {:induction false} LifecycleFromInitial(t: Table, url: string, checkedAt: int, outcome: FetchOutcome, settledAt: int)
    ensures var r := Effect(t, url, InitialState, checkedAt, outcome, settledAt);
      && (r.fetched ==> r.pending == BindingState(true, JNull, None))
      && !r.settled.isLoading
      && (r.settled.error == None <==> !r.fetched || FetchData(outcome).Success?)
      && (r.settled.error != None ==> r.settled.data == JNull)
  {
    var r := Effect(t, url, InitialState, checkedAt, outcome, settledAt);
    if Lookup(t, url, checkedAt) == None {
      MissFetches(t, url, InitialState, checkedAt, outcome, settledAt);
    }
  }

  /** The effect never resets a field: a success keeps an earlier error, a failure keeps earlier data. */
  lemma NothingIsReset(t: Table, url: string, state: BindingState, checkedAt: int, outcome: FetchOutcome, settledAt: int)
    ensures var r := Effect(t, url, state, checkedAt, outcome, settledAt);
      && (r.settled.error != state.error ==> r.fetched && FetchData(outcome).Failure?)
      && (r.settled.data != state.data ==> !r.fetched || FetchData(outcome).Success?)
  {
  }

  // ---------------------------------------------------------------------------
  // Runs in sequence
  // ---------------------------------------------------------------------------

  /**
    After a successful fetch, another run for the same key less than `CacheExpiration` later
    serves the stored result without fetching.
  */
  lemma {:induction false} RepeatWithinWindowHits(t: Table, url: string, s1: BindingState, c1: int, o1: FetchOutcome, settledAt: int,
                                 s2: BindingState, c2: int, o2: FetchOutcome, a2: int)
    requires Lookup(t, url, c1) == None && FetchData(o1).Success?
    requires c2 - settledAt < CacheExpiration
    ensures var r1 := Effect(t, url, s1, c1, o1, settledAt);
      var r2 := Effect(r1.table, url, s2, c2, o2, a2);
      && r1.fetched && !r2.fetched
      && r2.table == r1.table
      && r2.settled == s2.(data := FetchData(o1).value)
  {
    var r1 := Effect(t, url, s1, c1, o1, settledAt);
    MissSuccessStores(t, url, s1, c1, o1, settledAt);
    FreshHitServesWithoutFetch(r1.table, url, s2, c2, o2, a2);
  }

  /**
    A re-render with the same `url` serves what the binding already shows, however old the
    cache entry is: an expired entry is refreshed only by a new mount or a change of `url`.
  */
  lemma {:induction false} RerenderKeepsExpiredData(t: Table, url: string, s1: BindingState, c1: int, o1: FetchOutcome,
                                   settledAt: int, c2: int, o2: FetchOutcome, a2: int)
    requires Lookup(t, url, c1) == None && FetchData(o1).Success?
    requires c2 - settledAt >= CacheExpiration
    ensures var r1 := Render(t, None, url, s1, c1, o1, settledAt);
      var r2 := Render(r1.table, Some(url), url, r1.settled, c2, o2, a2);
      && Lookup(r2.table, url, c2) == None
      && !r2.fetched
      && r2.settled.data == FetchData(o1).value
  {
    var r1 := Render(t, None, url, s1, c1, o1, settledAt);
    MissSuccessStores(t, url, s1, c1, o1, settledAt);
    assert r1.table.items[url].timestamp == settledAt;
  }

  /** From `CacheExpiration` after the successful fetch on, the next run fetches again. */
  lemma {:induction false} RepeatAfterWindowFetches(t: Table, url: string, s1: BindingState, c1: int, o1: FetchOutcome, settledAt: int,
                                   s2: BindingState, c2: int, o2: FetchOutcome, a2: int)
    requires Lookup(t, url, c1) == None && FetchData(o1).Success?
    requires c2 - settledAt >= CacheExpiration
    ensures var r1 := Effect(t, url, s1, c1, o1, settledAt);
      var r2 := Effect(r1.table, url, s2, c2, o2, a2);
      r1.fetched && r2.fetched
  {
    var r1 := Effect(t, url, s1, c1, o1, settledAt);
    MissSuccessStores(t, url, s1, c1, o1, settledAt);
    MissFetches(r1.table, url, s2, c2, o2, a2);
  }

  /** A failed fetch leaves no trace: any later run for that key fetches again. */
  lemma {:induction false} FailureIsRetried(t: Table, url: string, s1: BindingState, c1: int, o1: FetchOutcome, a1: int,
                           s2: BindingState, c2: int, o2: FetchOutcome, a2: int)
    requires Lookup(t, url, c1) == None && FetchData(o1).Failure?
    requires c1 <= c2
    ensures var r1 := Effect(t, url, s1, c1, o1, a1);
      Effect(r1.table, url, s2, c2, o2, a2).fetched
  {
    MissFailureRecordsError(t, url, s1, c1, o1, a1);
    MissStaysMiss(t, url, c1, c2);
  }

  /** An emptied cache serves nothing: every run fetches. */
  lemma EmptyCacheAlwaysFetches(url: string, state: BindingState, checkedAt: int, outcome: FetchOutcome, settledAt: int)
    ensures Effect(Empty, url, state, checkedAt, outcome, settledAt).fetched
  {
  }

  // ---------------------------------------------------------------------------
  // Preload
  // ---------------------------------------------------------------------------

  /**
    A successful preload stores its result even over a fresh entry, and a run of the effect less
    than `CacheExpiration` after it is served from the cache without fetching.
  */
  lemma {:induction false} PreloadThenHookHits(t: Table, url: string, o1: FetchOutcome, settledAt: int,
                              state: BindingState, checkedAt: int, o2: FetchOutcome, a2: int)
    requires FetchData(o1).Success?
    requires checkedAt - settledAt < CacheExpiration
    ensures Preload(t, url, o1, settledAt).items[url] == CacheItem(FetchData(o1).value, settledAt)
    ensures var r := Effect(Preload(t, url, o1, settledAt), url, state, checkedAt, o2, a2);
      !r.fetched && r.settled == state.(data := FetchData(o1).value)
  {
    var p := Preload(t, url, o1, settledAt);
    assert p.items == t.items[url := CacheItem(FetchData(o1).value, settledAt)];
    FreshHitServesWithoutFetch(p, url, state, checkedAt, o2, a2);
  }

  /** A failed preload leaves the cache unchanged. */
  lemma PreloadFailureLeavesCache(t: Table, url: string, outcome: FetchOutcome, settledAt: int)
    requires FetchData(outcome).Failure?
    ensures Preload(t, url, outcome, settledAt) == t
  {
  }
}
