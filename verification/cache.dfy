/** A per-source local cache (client-go `cache.Indexer`), seen from the
    read side only: a key -> object map, the orders its two listings come
    out in, and the keys whose lookup reports an error. `List()` and
    `ListKeys()` each range the underlying map on their own, so the two
    listings are not assumed to agree position by position. */
module Cache {
  import opened Wrappers
  import opened Seqs
  import opened Resource

  datatype Snapshot = Snapshot(
    items: map<string, Object>,
    keyOrder: seq<string>,   // order `ListKeys()` yields the keys in
    listOrder: seq<string>,  // order of the keys whose objects `List()` yields
    failing: set<string>     // keys whose GetByKey returns an error
  )

  /** Both listing orders visit every stored key exactly once. */
  predicate WellFormed(s: Snapshot) {
    Enumerates(s.keyOrder, s.items.Keys) && Enumerates(s.listOrder, s.items.Keys)
  }

  type Indexer = s: Snapshot | WellFormed(s) witness Snapshot(map[], [], [], {})

  const LookupFailed: string := "indexer lookup failed"

  /** `Indexer.ListKeys()`: every stored key, once. */
  function ListKeys(ix: Indexer): (keys: seq<string>)
    ensures NoDup(keys)
    ensures forall k :: k in keys <==> k in ix.items
  {
    ix.keyOrder
  }

  /** `objs` holds the objects of `items`, one per key, in the order of
      some enumeration of the keys. */
  ghost predicate ObjectsPerKey(objs: seq<Object>, items: map<string, Object>) {
    exists ks :: Enumerates(ks, items.Keys) && |ks| == |objs|
      && forall i :: 0 <= i < |objs| ==> objs[i] == items[ks[i]]
  }

  /** `Indexer.List()`: the stored objects, one per key. */
  function List(ix: Indexer): (objs: seq<Object>)
    ensures ObjectsPerKey(objs, ix.items)
    ensures |objs| == |ListKeys(ix)|
    ensures forall o :: o in objs <==> o in ix.items.Values
  {
    var ks := ix.listOrder;
    var objs := seq(|ks|, i requires 0 <= i < |ks| => ix.items[ks[i]]);
    assert Enumerates(ks, ix.items.Keys) && |ks| == |objs|
      && forall i :: 0 <= i < |objs| ==> objs[i] == ix.items[ks[i]];
    EnumerationsPermute(ks, ix.keyOrder, ix.items.Keys);
    assert |ks| == |multiset(ks)| == |multiset(ix.keyOrder)| == |ix.keyOrder|;
    assert forall o :: o in ix.items.Values ==> o in objs by {
      forall o | o in ix.items.Values
        ensures o in objs
      {
        var k :| k in ix.items && ix.items[k] == o;
        var i :| 0 <= i < |ks| && ks[i] == k;
        assert objs[i] == o;
      }
    }
    objs
  }

  /** `Indexer.GetByKey(key)`: `(item, exists, err)` as a Result whose
      success value is the item when it exists. */
  function GetByKey(ix: Indexer, key: string): (r: Result<Option<Object>, string>)
    ensures r.Failure? <==> key in ix.failing
    ensures r.Success? ==> (r.value.Some? <==> key in ListKeys(ix))
    ensures r.Success? && r.value.Some? ==> key in ix.items && r.value.value == ix.items[key]
  {
    if key in ix.failing then Failure(LookupFailed)
    else if key in ix.items then Success(Some(ix.items[key]))
    else Success(None)
  }

  /** What a lookup finds is among what `List()` returns. */
  lemma FoundIsListed(ix: Indexer, key: string)
    requires GetByKey(ix, key).Success? && GetByKey(ix, key).value.Some?
    ensures GetByKey(ix, key).value.value in List(ix)
  {
    assert ix.items[key] in ix.items.Values;
  }
}
