/**
  The module-level `cache` object of the caching fetch library: a string-keyed record of
  cache items, with its keys kept in insertion order as a JavaScript object keeps them,
  and the freshness rule that decides whether an item may be served.
*/
module Store {
  import opened Wrappers
  import opened JsonText

  /** `CacheItem`: the fetched payload and the `Date.now()` reading taken when it was stored. */
  datatype CacheItem = CacheItem(data: Json, timestamp: int)

  /** `CACHE_EXPIRATION`: one minute, in milliseconds. */
  const CacheExpiration: int := 60 * 1000

  /** The own properties of the cache object: the keys in insertion order, and their values. */
  datatype Table = Table(keys: seq<string>, items: map<string, CacheItem>)

  const Empty: Table := Table([], map[])

  predicate Distinct(keys: seq<string>)
  {
    forall i, j :: 0 <= i < j < |keys| ==> keys[i] != keys[j]
  }

  /** Every key is listed exactly once, and only keys that hold an item are listed. */
  ghost predicate WellFormed(t: Table)
  {
    Distinct(t.keys) && forall k :: k in t.items <==> k in t.keys
  }

  // ---------------------------------------------------------------------------
  // Freshness
  // ---------------------------------------------------------------------------

  /** Age below the window, strictly: an item exactly `CacheExpiration` old is stale. */
  predicate IsFresh(item: CacheItem, now: int)
  {
    now - item.timestamp < CacheExpiration
  }

  /** The hit test of the hook: the cached payload, when the key is present and its item fresh. */
  function Lookup(t: Table, url: string, now: int): (r: Option<Json>)
    ensures r.Some? <==> url in t.items && now - t.items[url].timestamp < 60000
    ensures r.Some? ==> r.value == t.items[url].data
  {
    if url in t.items && IsFresh(t.items[url], now) then Some(t.items[url].data) else None
  }

  /** An item is served for 59 999 ms after it was stored and not at 60 000 ms. */
  lemma ExpiresAfterWindow(t: Table, url: string, item: CacheItem)
    requires url in t.items && t.items[url] == item
    ensures Lookup(t, url, item.timestamp + CacheExpiration - 1) == Some(item.data)
    ensures Lookup(t, url, item.timestamp + CacheExpiration) == None
  {
  }

  /** A miss stays a miss as time goes on, as long as the table does not change. */
  lemma MissStaysMiss(t: Table, url: string, now: int, later: int)
    requires now <= later
    requires Lookup(t, url, now) == None
    ensures Lookup(t, url, later) == None
  {
  }

  // ---------------------------------------------------------------------------
  // Property assignment, deletion, Object.assign
  // ---------------------------------------------------------------------------

  /** `cache[k] = v`: a new key goes last, an existing key keeps its place and gets the new value. */
  function Put(t: Table, k: string, v: CacheItem): (r: Table)
    ensures r.items == t.items[k := v]
    ensures k in t.items ==> r.keys == t.keys
    ensures k !in t.items ==> r.keys == t.keys + [k]
    ensures WellFormed(t) ==> WellFormed(r)
  {
    Table(if k in t.items then t.keys else t.keys + [k], t.items[k := v])
  }

  /** The key list without the (only) occurrence of `k`. */
  function RemoveKey(keys: seq<string>, k: string): (r: seq<string>)
    ensures Distinct(keys) ==> forall x :: x in r <==> x in keys && x != k
    ensures Distinct(keys) ==> Distinct(r)
  {
    if keys == [] then []
    else if keys[0] == k then
      assert Distinct(keys) ==> k !in keys[1..];
      keys[1..]
    else
      var tail := RemoveKey(keys[1..], k);
      assert Distinct(keys) ==> keys[0] !in tail;
      [keys[0]] + tail
  }

  /** `delete cache[k]`. */
  function Delete(t: Table, k: string): (r: Table)
    ensures r.items == t.items - {k}
    ensures WellFormed(t) ==> WellFormed(r)
    ensures t.keys != [] && t.keys[0] == k ==> r.keys == t.keys[1..]
  {
    Table(RemoveKey(t.keys, k), t.items - {k})
  }

  /** A distinct key list stays distinct without its first key. */
  lemma DistinctTail(keys: seq<string>)
    requires keys != [] && Distinct(keys)
    ensures Distinct(keys[1..])
    ensures keys[0] !in keys[1..]
  {
    forall i | 0 <= i < |keys| - 1
      ensures keys[1..][i] == keys[i + 1]
    {
    }
  }

  lemma {:induction false} RemoveKeyAt(keys: seq<string>, k: string, i: nat)
    requires Distinct(keys) && i < |keys| && keys[i] == k
    ensures RemoveKey(keys, k) == keys[..i] + keys[i + 1..]
    decreases |keys|
  {
    DistinctTail(keys);
    if i > 0 {
      assert keys[0] != k;
      RemoveKeyAt(keys[1..], k, i - 1);
      assert keys[..i] == [keys[0]] + keys[1..][..i - 1];
      assert keys[i + 1..] == keys[1..][i..];
    }
  }

  lemma {:induction false} RemoveKeyAbsent(keys: seq<string>, k: string)
    requires k !in keys
    ensures RemoveKey(keys, k) == keys
    decreases |keys|
  {
    if keys != [] {
      assert keys[0] != k;
      RemoveKeyAbsent(keys[1..], k);
      assert [keys[0]] + keys[1..] == keys;
    }
  }

  /** `delete` keeps the other keys in their order, wherever the deleted key stood; deleting an absent key changes no key. */
  lemma DeleteKeepsOrder(t: Table, k: string)
    requires Distinct(t.keys)
    ensures forall i :: 0 <= i < |t.keys| && t.keys[i] == k ==> Delete(t, k).keys == t.keys[..i] + t.keys[i + 1..]
    ensures k !in t.keys ==> Delete(t, k).keys == t.keys
  {
    forall i | 0 <= i < |t.keys| && t.keys[i] == k
      ensures Delete(t, k).keys == t.keys[..i] + t.keys[i + 1..]
    {
      RemoveKeyAt(t.keys, k, i);
    }
    if k !in t.keys {
      RemoveKeyAbsent(t.keys, k);
    }
  }

  /** The map the pairs would build if assigned in order into an empty object: the last pair for a key wins. */
  function PairsMap(pairs: seq<(string, CacheItem)>): map<string, CacheItem>
  {
    if pairs == [] then map[]
    else
      var last := pairs[|pairs| - 1];
      PairsMap(pairs[..|pairs| - 1])[last.0 := last.1]
  }

  /**
    `Object.assign(target, source)`: the source's properties assigned to the target one by one,
    in the source's order. Colliding keys are overwritten, all other keys are kept.
  */
  function Assign(t: Table, pairs: seq<(string, CacheItem)>): (r: Table)
    ensures r.items == t.items + PairsMap(pairs)
    ensures WellFormed(t) ==> WellFormed(r)
  {
    if pairs == [] then t
    else
      var last := pairs[|pairs| - 1];
      Put(Assign(t, pairs[..|pairs| - 1]), last.0, last.1)
  }

  /** The own entries in key order, as `Object.entries` and `JSON.stringify` visit them. */
  function Entries(t: Table): (r: seq<(string, CacheItem)>)
    requires forall k :: k in t.keys ==> k in t.items
    ensures |r| == |t.keys|
    decreases |t.keys|
  {
    if t.keys == [] then []
    else
      var last := t.keys[|t.keys| - 1];
      Entries(Table(t.keys[..|t.keys| - 1], t.items)) + [(last, t.items[last])]
  }

  /** The enumeration lists the keys in insertion order, each paired with its item. */
  lemma {:induction false} EntriesAt(t: Table)
    requires forall k :: k in t.keys ==> k in t.items
    ensures forall i :: 0 <= i < |Entries(t)| ==> Entries(t)[i] == (t.keys[i], t.items[t.keys[i]])
    decreases |t.keys|
  {
    if t.keys != [] {
      var front := Table(t.keys[..|t.keys| - 1], t.items);
      EntriesAt(front);
    }
  }

  /** Appending one key to the enumeration appends one pair to the entries. */
  lemma EntriesSnoc(keys: seq<string>, items: map<string, CacheItem>)
    requires keys != []
    requires forall k :: k in keys ==> k in items
    ensures var es := Entries(Table(keys, items));
      var last := keys[|keys| - 1];
      && es == Entries(Table(keys[..|keys| - 1], items)) + [(last, items[last])]
      && es[..|es| - 1] == Entries(Table(keys[..|keys| - 1], items))
      && es[|es| - 1] == (last, items[last])
  {
  }

  /** Without its last key a key list stays distinct, and the last key is not among the others. */
  lemma DistinctFront(keys: seq<string>)
    requires keys != [] && Distinct(keys)
    ensures Distinct(keys[..|keys| - 1])
    ensures keys[|keys| - 1] !in keys[..|keys| - 1]
  {
    var front := keys[..|keys| - 1];
    forall i | 0 <= i < |front|
      ensures front[i] == keys[i]
    {
    }
  }

  /** Assigning pairs is assigning all but the last, then the last. */
  lemma AssignSnoc(t: Table, pairs: seq<(string, CacheItem)>)
    requires pairs != []
    ensures var last := pairs[|pairs| - 1];
      Assign(t, pairs) == Put(Assign(t, pairs[..|pairs| - 1]), last.0, last.1)
  {
  }

  /** Assigning a key that a well-formed object does not list appends it to the key list. */
  lemma AppendFreshKey(before: Table, k: string, v: CacheItem)
    requires WellFormed(before) && k !in before.keys
    ensures Put(before, k, v).keys == before.keys + [k]
  {
  }

  /** Assigning the entries of `keys` into an empty object lists exactly `keys`, in order. */
  lemma {:induction false} AssignEntriesKeys(keys: seq<string>, items: map<string, CacheItem>)
    requires Distinct(keys)
    requires forall k :: k in keys ==> k in items
    ensures Assign(Empty, Entries(Table(keys, items))).keys == keys
    decreases |keys|
  {
    if keys != [] {
      var front, k := keys[..|keys| - 1], keys[|keys| - 1];
      DistinctFront(keys);
      AssignEntriesKeys(front, items);
      EntriesSnoc(keys, items);
      var es := Entries(Table(keys, items));
      AssignSnoc(Empty, es);
      assert WellFormed(Empty);
      AppendFreshKey(Assign(Empty, Entries(Table(front, items))), k, items[k]);
      assert front + [k] == keys;
    }
  }

  /** The pairs enumerated from `keys` map exactly those keys, each to its item. */
  lemma {:induction false} PairsMapOfEntries(keys: seq<string>, items: map<string, CacheItem>)
    requires forall k :: k in keys ==> k in items
    ensures var m := PairsMap(Entries(Table(keys, items)));
      && (forall k :: k in m <==> k in keys)
      && (forall k :: k in m ==> m[k] == items[k])
    decreases |keys|
  {
    if keys != [] {
      var front, k := keys[..|keys| - 1], keys[|keys| - 1];
      EntriesSnoc(keys, items);
      PairsMapOfEntries(front, items);
      assert PairsMap(Entries(Table(keys, items))) == PairsMap(Entries(Table(front, items)))[k := items[k]];
      assert keys == front + [k];
    }
  }

  /** A map that holds exactly the listed keys, with the values of `items`, is `items` when `items` holds exactly those keys. */
  lemma SameMap(m: map<string, CacheItem>, keys: seq<string>, items: map<string, CacheItem>)
    requires forall k :: k in m <==> k in keys
    requires forall k :: k in m ==> k in items && m[k] == items[k]
    requires forall k :: k in items <==> k in keys
    ensures map[] + m == items
  {
    assert map[] + m == m;
  }

  /** Assigning a table's entries, in order, into an empty object rebuilds that table exactly. */
  lemma AssignEntriesIntoEmpty(t: Table)
    requires WellFormed(t)
    ensures Assign(Empty, Entries(t)) == t
  {
    assert t == Table(t.keys, t.items);
    AssignEntriesKeys(t.keys, t.items);
    PairsMapOfEntries(t.keys, t.items);
    SameMap(PairsMap(Entries(t)), t.keys, t.items);
  }

  /** Assigning a table's entries over any object overwrites the table's keys and keeps the others. */
  lemma AssignEntriesMerges(live: Table, t: Table)
    requires WellFormed(t)
    ensures Assign(live, Entries(t)).items == live.items + t.items
  {
    var es := Entries(t);
    AssignEntriesIntoEmpty(t);
    assert Assign(Empty, es).items == Empty.items + PairsMap(es);
    assert Empty.items + PairsMap(es) == PairsMap(es);
  }
}
