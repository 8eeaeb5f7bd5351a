/**
  The caching fetch library with its module-level `cache` object as a class: the hook's effect,
  `preloadCachingFetch`, `serializeCache`, `initializeCache` and `wipeCache` update the cache
  in place. Each method is specified by the value-level functions of modules Store, Snapshot
  and Coordinator. `fetched` records the URL of every `fetch` call, so that "no fetch" can be
  stated.
*/
module CachingFetch {
  import opened Wrappers
  import opened JsonText
  import opened Store
  import opened Fetch
  import opened Snapshot
  import opened Coordinator

  class Cache {
    var keys: seq<string>
    var items: map<string, CacheItem>
    ghost var fetched: seq<string>

    ghost predicate Valid()
      reads this
    {
      WellFormed(Table(keys, items))
    }

    function Contents(): Table
      reads this
    {
      Table(keys, items)
    }

    /** `const cache: Record<string, CacheItem> = {}`. */
    constructor ()
      ensures Valid() && Contents() == Empty && fetched == []
    {
      keys, items := [], map[];
      fetched := [];
    }

    /** `cache[url] = item`. */
    method SetItem(url: string, item: CacheItem)
      requires Valid()
      modifies this
      ensures Valid() && Contents() == Put(old(Contents()), url, item)
      ensures fetched == old(fetched)
    {
      if url !in items {
        keys := keys + [url];
      }
      items := items[url := item];
    }

    /** `delete cache[key]`. */
    method DeleteItem(key: string)
      requires Valid()
      modifies this
      ensures Valid() && Contents() == Delete(old(Contents()), key)
      ensures fetched == old(fetched)
    {
      keys := RemoveKey(keys, key);
      items := items - {key};
    }

    /** `wipeCache`: deletes every key listed by `Object.keys(cache)`, one after the other. */
    method WipeCache()
      requires Valid()
      modifies this
      ensures Valid() && Contents() == Empty
      ensures fetched == old(fetched)
    {
      var listed := keys;
      var i := 0;
      while i < |listed|
        invariant 0 <= i <= |listed|
        invariant Valid() && keys == listed[i..]
        invariant fetched == old(fetched)
      {
        assert keys[1..] == listed[i + 1..];
        DeleteItem(listed[i]);
        i := i + 1;
      }
      assert items.Keys == {};
    }

    /** `serializeCache`. */
    method SerializeCache() returns (text: string)
      requires Valid()
      ensures text == Serialize(Contents())
      ensures Deserialize(text) == Success(Entries(Contents()))
    {
      text := Serialize(Table(keys, items));
      SerializeRoundTrip(Table(keys, items));
    }

    /** `Object.assign(cache, parsed)`: the parsed pairs assigned to the cache one by one, in order. */
    method AssignPairs(pairs: seq<(string, CacheItem)>)
      requires Valid()
      modifies this
      ensures Valid() && fetched == old(fetched)
      ensures Contents() == Assign(old(Contents()), pairs)
    {
      var i := 0;
      while i < |pairs|
        invariant 0 <= i <= |pairs|
        invariant Valid() && fetched == old(fetched)
        invariant Contents() == Assign(old(Contents()), pairs[..i])
      {
        assert pairs[..i + 1][..i] == pairs[..i];
        AssignSnoc(old(Contents()), pairs[..i + 1]);
        SetItem(pairs[i].0, pairs[i].1);
        i := i + 1;
      }
      assert pairs[..|pairs|] == pairs;
    }

    /**
      `initializeCache`: parses the text, then assigns the parsed pairs to the cache.
      Text that does not parse is reported and the cache is left as it was.
    */
    method InitializeCache(text: string) returns (error: Option<SnapshotError>)
      requires Valid()
      modifies this
      ensures Valid() && fetched == old(fetched)
      ensures Deserialize(text).Failure? ==> error == Some(MalformedSnapshot) && Contents() == old(Contents())
      ensures Deserialize(text).Success? ==> error == None && Contents() == Assign(old(Contents()), Deserialize(text).value)
    {
      match Deserialize(text)
      case Failure(e) =>
        error := Some(e);
      case Success(pairs) =>
        AssignPairs(pairs);
        error := None;
    }

    /**
      The effect of `useCachingFetch(url)`, run on binding `state`. Returns the binding as it is
      while the fetch is pending and once it has settled (the same on a fresh hit).
      `checkedAt` and `settledAt` are the two `Date.now()` readings; `outcome` is what `fetch`
      settles to.
    */
    method RunEffect(url: string, state: BindingState, checkedAt: int, outcome: FetchOutcome, settledAt: int)
      returns (pending: BindingState, settled: BindingState)
      requires Valid()
      modifies this
      ensures Valid()
      ensures var run := Effect(old(Contents()), url, state, checkedAt, outcome, settledAt);
        && Contents() == run.table
        && pending == run.pending
        && settled == run.settled
        && fetched == old(fetched) + (if run.fetched then [url] else [])
    {
      var isLoading, data, error := state.isLoading, state.data, state.error;
      if url in items && checkedAt - items[url].timestamp < CacheExpiration {
        data := items[url].data;
        pending := BindingState(isLoading, data, error);
        settled := pending;
        return;
      }
      isLoading := true;
      pending := BindingState(isLoading, data, error);
      fetched := fetched + [url];
      match FetchData(outcome) {
        case Success(result) =>
          SetItem(url, CacheItem(result, settledAt));
          data := result;
        case Failure(reason) =>
          error := Some(AsError(reason));
      }
      isLoading := false;
      settled := BindingState(isLoading, data, error);
    }

    /** `preloadCachingFetch(url)`: fetches whatever the cache holds; a failure is only logged. */
    method PreloadCachingFetch(url: string, outcome: FetchOutcome, settledAt: int)
      requires Valid()
      modifies this
      ensures Valid()
      ensures Contents() == Preload(old(Contents()), url, outcome, settledAt)
      ensures fetched == old(fetched) + [url]
    {
      fetched := fetched + [url];
      match FetchData(outcome)
      case Success(result) =>
        SetItem(url, CacheItem(result, settledAt));
      case Failure(_) =>
    }
  }
}
