/**
  `serializeCache` and the parsing half of `initializeCache`: the cache object written as JSON
  text, `{"<key>":{"data":<value>,"timestamp":<ms>},...}`, and read back into the key/item
  pairs that `Object.assign` copies into the live cache.
*/
module Snapshot {
  import opened Wrappers
  import opened JsonText
  import opened Store

  datatype SnapshotError = MalformedSnapshot

  /** A cache item as a JSON object, its two properties in the order the source creates them. */
  function ItemJson(item: CacheItem): Json
  {
    JObject([Member("data", item.data), Member("timestamp", JNumber(item.timestamp))])
  }

  function MembersOf(entries: seq<(string, CacheItem)>): (ms: seq<Member>)
    ensures |ms| == |entries|
  {
    if entries == [] then [] else [Member(entries[0].0, ItemJson(entries[0].1))] + MembersOf(entries[1..])
  }

  /** `serializeCache`: `JSON.stringify(cache)`, keys in insertion order. */
  function Serialize(t: Table): (text: string)
    requires forall k :: k in t.keys ==> k in t.items
    ensures |text| >= 2 && text[0] == '{' && text[|text| - 1] == '}'
    ensures t.keys == [] ==> text == "{}"
  {
    var ms := MembersOf(Entries(t));
    var inner := StringifyMembers(ms);
    assert Stringify(JObject(ms)) == "{" + inner + "}";
    assert t.keys == [] ==> inner == [];
    Stringify(JObject(ms))
  }

  /** The value of the last member called `name`: `JSON.parse` keeps the last of duplicate keys. */
  function Field(ms: seq<Member>, name: string): (r: Option<Json>)
    ensures r.Some? ==> exists i :: 0 <= i < |ms| && ms[i] == Member(name, r.value)
  {
    if ms == [] then None
    else if ms[|ms| - 1].name == name then Some(ms[|ms| - 1].value)
    else Field(ms[..|ms| - 1], name)
  }

  /** A JSON value read as a cache item: an object with a `data` property and an integer `timestamp`. */
  function AsItem(v: Json): Option<CacheItem>
  {
    match v
    case JObject(ms) =>
      (match (Field(ms, "data"), Field(ms, "timestamp"))
       case (Some(d), Some(JNumber(ts))) => Some(CacheItem(d, ts))
       case _ => None)
    case _ => None
  }

  /** The members read as key/item pairs, in order; `None` as soon as one member is not an item. */
  function AsEntries(ms: seq<Member>): (r: Option<seq<(string, CacheItem)>>)
    ensures r.Some? <==> forall i :: 0 <= i < |ms| ==> AsItem(ms[i].value).Some?
    ensures r.Some? ==> |r.value| == |ms|
    ensures r.Some? ==> forall i :: 0 <= i < |ms| ==> r.value[i].0 == ms[i].name && AsItem(ms[i].value) == Some(r.value[i].1)
  {
    if ms == [] then Some([])
    else
      match (AsItem(ms[0].value), AsEntries(ms[1..]))
      case (Some(item), Some(rest)) => Some([(ms[0].name, item)] + rest)
      case _ => None
  }

  /** `JSON.parse(serializedCache)`, then the pairs of the parsed object in order, or `MalformedSnapshot`. */
  function Deserialize(text: string): (r: Result<seq<(string, CacheItem)>, SnapshotError>)
    ensures Parse(text) == None ==> r == Failure(MalformedSnapshot)
    ensures r.Success? <==>
      && Parse(text).Some? && Parse(text).value.JObject?
      && forall i :: 0 <= i < |Parse(text).value.members| ==> AsItem(Parse(text).value.members[i].value).Some?
    ensures r.Success? ==>
      var ms := Parse(text).value.members;
      && |r.value| == |ms|
      && forall i :: 0 <= i < |ms| ==> r.value[i].0 == ms[i].name && AsItem(ms[i].value) == Some(r.value[i].1)
  {
    match Parse(text)
    case Some(JObject(ms)) =>
      (match AsEntries(ms)
       case Some(es) => Success(es)
       case None => Failure(MalformedSnapshot))
    case _ => Failure(MalformedSnapshot)
  }

  lemma ItemJsonReadsBack(item: CacheItem)
    ensures AsItem(ItemJson(item)) == Some(item)
  {
    var ms := [Member("data", item.data), Member("timestamp", JNumber(item.timestamp))];
    assert ms[..1] == [Member("data", item.data)];
    assert Field(ms, "timestamp") == Some(JNumber(item.timestamp));
    assert Field(ms, "data") == Some(item.data);
  }

  lemma {:induction false} AsEntriesOfMembers(entries: seq<(string, CacheItem)>)
    ensures AsEntries(MembersOf(entries)) == Some(entries)
    decreases |entries|
  {
    if entries != [] {
      var ms := MembersOf(entries);
      assert ms[0] == Member(entries[0].0, ItemJson(entries[0].1));
      assert ms[1..] == MembersOf(entries[1..]);
      ItemJsonReadsBack(entries[0].1);
      AsEntriesOfMembers(entries[1..]);
      assert [(entries[0].0, entries[0].1)] + entries[1..] == entries;
    }
  }

  /** What `serializeCache` writes, the parsing half of `initializeCache` reads back pair for pair. */
  lemma SerializeRoundTrip(t: Table)
    requires WellFormed(t)
    ensures Deserialize(Serialize(t)) == Success(Entries(t))
  {
    StringifyParseRoundTrip(JObject(MembersOf(Entries(t))));
    AsEntriesOfMembers(Entries(t));
  }

  /** `wipeCache(); initializeCache(serializeCache())` restores every key, item and the key order. */
  lemma RestoreAfterWipe(t: Table)
    requires WellFormed(t)
    ensures Deserialize(Serialize(t)).Success?
    ensures Assign(Empty, Deserialize(Serialize(t)).value) == t
  {
    SerializeRoundTrip(t);
    AssignEntriesIntoEmpty(t);
  }

  /** Restoring a snapshot over a live cache overwrites the keys it names and keeps every other key. */
  lemma RestoreMerges(live: Table, snapshot: Table)
    requires WellFormed(live) && WellFormed(snapshot)
    ensures Deserialize(Serialize(snapshot)).Success?
    ensures Assign(live, Deserialize(Serialize(snapshot)).value).items == live.items + snapshot.items
  {
    SerializeRoundTrip(snapshot);
    AssignEntriesMerges(live, snapshot);
  }

  /** The text the tests pass, `invalid JSON`, is rejected. */
  lemma InvalidTextRejected()
    ensures Deserialize("invalid JSON") == Failure(MalformedSnapshot)
  {
    RejectsNonJsonText("invalid JSON");
  }
}
