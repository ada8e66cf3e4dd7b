/** The aggregated store of pkg/queue/store.go: a map from resource kind to
    the ordered caches of every source, read through a switch on the kind
    and a fan-out that concatenates the selected caches' answers. */
module Store {
  import opened Wrappers
  import opened Seqs
  import opened Resource
  import Cache

  type MapIndexers = map<string, seq<Cache.Indexer>>

  /** Kinds `List` has a case for (besides "all"). */
  const ListKinds: set<string> := {Services, Pods, ConfigMaps, Deployments}

  /** Kinds `ListKeys` and `GetByKey` have a case for (besides "all"):
      three more than `List`. */
  const KeyKinds: set<string> := ListKinds + {Statefulsets, Daemonsets, Secrets}

  /** `mapIndexer[r]`: Go yields a nil slice for a kind not in the map. */
  function Selected(m: MapIndexers, r: string): seq<Cache.Indexer> {
    if r in m then m[r] else []
  }

  /** The caches the "all" case visits: every cache of every kind, kinds in
      the order Go's `range` over the map happens to take (`order`). */
  function Everything(m: MapIndexers, order: seq<string>): seq<Cache.Indexer> {
    Flatten(order, k => Selected(m, k))
  }

  /** Fan-out of `Indexer.List()` over caches, in slice order. */
  function Objects(ixs: seq<Cache.Indexer>): seq<Object> {
    Flatten(ixs, Cache.List)
  }

  /** Fan-out of `Indexer.ListKeys()` over caches, in slice order. */
  function Keys(ixs: seq<Cache.Indexer>): seq<string> {
    Flatten(ixs, Cache.ListKeys)
  }

  /** The cache reports `exists` for `key` without an error. */
  predicate Found(ix: Cache.Indexer, key: string) {
    Cache.GetByKey(ix, key).Success? && Cache.GetByKey(ix, key).value.Some?
  }

  /** What one cache contributes to a lookup: its item, if found. */
  function Hit(ix: Cache.Indexer, key: string): seq<Object> {
    if Found(ix, key) then [Cache.GetByKey(ix, key).value.value] else []
  }

  /** Reference definition of a lookup's items: each cache's hit, in order. */
  function Hits(ixs: seq<Cache.Indexer>, key: string): seq<Object> {
    Flatten(ixs, ix => Hit(ix, key))
  }

  lemma HitsCons(ix: Cache.Indexer, ixs: seq<Cache.Indexer>, key: string)
    ensures Hits([ix] + ixs, key) == Hit(ix, key) + Hits(ixs, key)
  {
    assert ([ix] + ixs)[1..] == ixs;
  }

  /** The lookup loop: an erroring cache is skipped (`continue`), a cache
      reporting `exists` appends its item and raises `ok`. */
  function Scan(ixs: seq<Cache.Indexer>, key: string, items: seq<Object>, ok: bool): (r: (seq<Object>, bool))
    ensures r.0 == items + Hits(ixs, key)
    ensures r.1 <==> ok || exists i :: 0 <= i < |ixs| && Found(ixs[i], key)
    decreases |ixs|
  {
    if ixs == [] then (items, ok)
    else
      var rest := ixs[1..];
      assert forall i :: 0 <= i < |rest| ==> rest[i] == ixs[i + 1];
      match Cache.GetByKey(ixs[0], key)
      case Failure(_) => Scan(rest, key, items, ok)
      case Success(None) => Scan(rest, key, items, ok)
      case Success(Some(item)) => Scan(rest, key, items + [item], true)
  }

  /** `MapIndexers.List(r)`. */
  function List(m: MapIndexers, r: string, order: seq<string>): (l: seq<Object>)
    requires Enumerates(order, m.Keys)
    ensures r == All ==> l == Objects(Everything(m, order))
    ensures r in ListKinds ==> l == Objects(Selected(m, r))
    ensures r != All && r !in ListKinds ==> l == []
    ensures r != All && r !in m ==> l == []
  {
    if r == All then Objects(Everything(m, order))
    else if r == Services then Objects(Selected(m, Services))
    else if r == Pods then Objects(Selected(m, Pods))
    else if r == ConfigMaps then Objects(Selected(m, ConfigMaps))
    else if r == Deployments then Objects(Selected(m, Deployments))
    else []
  }

  /** `MapIndexers.ListKeys(r)`. */
  function ListKeys(m: MapIndexers, r: string, order: seq<string>): (keys: seq<string>)
    requires Enumerates(order, m.Keys)
    ensures r == All ==> keys == Keys(Everything(m, order))
    ensures r in KeyKinds ==> keys == Keys(Selected(m, r))
    ensures r != All && r !in KeyKinds ==> keys == []
    ensures r != All && r !in m ==> keys == []
  {
    if r == All then Keys(Everything(m, order))
    else if r == Services then Keys(Selected(m, Services))
    else if r == Pods then Keys(Selected(m, Pods))
    else if r == ConfigMaps then Keys(Selected(m, ConfigMaps))
    else if r == Deployments then Keys(Selected(m, Deployments))
    else if r == Statefulsets then Keys(Selected(m, Statefulsets))
    else if r == Daemonsets then Keys(Selected(m, Daemonsets))
    else if r == Secrets then Keys(Selected(m, Secrets))
    else []
  }

  /** `MapIndexers.GetByKey(r, key)`: the items found and whether any was. */
  function GetByKey(m: MapIndexers, r: string, key: string, order: seq<string>): (res: (seq<Object>, bool))
    requires Enumerates(order, m.Keys)
    ensures r in KeyKinds ==> res.0 == Hits(Selected(m, r), key)
    ensures r in KeyKinds ==>
      (res.1 <==> exists i :: 0 <= i < |Selected(m, r)| && Found(Selected(m, r)[i], key))
    ensures r == All ==> res.0 == Hits(Everything(m, order), key)
    ensures r == All ==>
      (res.1 <==> exists k, i :: k in m && 0 <= i < |m[k]| && Found(m[k][i], key))
    ensures r != All && r !in KeyKinds ==> res == ([], false)
    ensures r != All && r !in m ==> res == ([], false)
  {
    if r == All then
      EverythingFound(m, order, key);
      Scan(Everything(m, order), key, [], false)
    else if r in KeyKinds then Scan(Selected(m, r), key, [], false)
    else ([], false)
  }

  /** The "all" case visits exactly the caches registered under some kind. */
  lemma EverythingMembers(m: MapIndexers, order: seq<string>)
    requires Enumerates(order, m.Keys)
    ensures forall ix :: ix in Everything(m, order) <==>
      exists k, i :: k in m && 0 <= i < |m[k]| && m[k][i] == ix
  {
    forall ix
      ensures ix in Everything(m, order) <==>
        exists k, i :: k in m && 0 <= i < |m[k]| && m[k][i] == ix
    {
      FlattenMember(order, k => Selected(m, k), ix);
      if exists k, i :: k in m && 0 <= i < |m[k]| && m[k][i] == ix {
        var k, i :| k in m && 0 <= i < |m[k]| && m[k][i] == ix;
        var j :| 0 <= j < |order| && order[j] == k;
        assert ix in Selected(m, order[j]);
      }
    }
  }

  /** Some cache of the "all" scan finds `key` iff some registered cache does. */
  lemma EverythingFound(m: MapIndexers, order: seq<string>, key: string)
    requires Enumerates(order, m.Keys)
    ensures (exists j :: 0 <= j < |Everything(m, order)| && Found(Everything(m, order)[j], key))
        <==> exists k, i :: k in m && 0 <= i < |m[k]| && Found(m[k][i], key)
  {
    var e := Everything(m, order);
    EverythingMembers(m, order);
    if exists j :: 0 <= j < |e| && Found(e[j], key) {
      var j :| 0 <= j < |e| && Found(e[j], key);
      assert e[j] in e;
    }
    if exists k, i :: k in m && 0 <= i < |m[k]| && Found(m[k][i], key) {
      var k, i :| k in m && 0 <= i < |m[k]| && Found(m[k][i], key);
      assert m[k][i] in e;
      var j :| 0 <= j < |e| && e[j] == m[k][i];
    }
  }

  /** `List("all")` holds exactly the objects of every cache under every kind. */
  lemma ListAllExactly(m: MapIndexers, order: seq<string>, o: Object)
    requires Enumerates(order, m.Keys)
    ensures o in List(m, All, order) <==>
      exists k, i :: k in m && 0 <= i < |m[k]| && o in Cache.List(m[k][i])
  {
    var e := Everything(m, order);
    EverythingMembers(m, order);
    FlattenMember(e, Cache.List, o);
    if o in List(m, All, order) {
      var j :| 0 <= j < |e| && o in Cache.List(e[j]);
      assert e[j] in e;
      var k, i :| k in m && 0 <= i < |m[k]| && m[k][i] == e[j];
    }
    if exists k, i :: k in m && 0 <= i < |m[k]| && o in Cache.List(m[k][i]) {
      var k, i :| k in m && 0 <= i < |m[k]| && o in Cache.List(m[k][i]);
      assert m[k][i] in e;
      var j :| 0 <= j < |e| && e[j] == m[k][i];
    }
  }

  /** `ListKeys("all")` holds exactly the keys of every cache under every kind. */
  lemma ListKeysAllExactly(m: MapIndexers, order: seq<string>, key: string)
    requires Enumerates(order, m.Keys)
    ensures key in ListKeys(m, All, order) <==>
      exists k, i :: k in m && 0 <= i < |m[k]| && key in m[k][i].items
  {
    var e := Everything(m, order);
    EverythingMembers(m, order);
    FlattenMember(e, Cache.ListKeys, key);
    if key in ListKeys(m, All, order) {
      var j :| 0 <= j < |e| && key in Cache.ListKeys(e[j]);
      assert e[j] in e;
      var k, i :| k in m && 0 <= i < |m[k]| && m[k][i] == e[j];
    }
    if exists k, i :: k in m && 0 <= i < |m[k]| && key in m[k][i].items {
      var k, i :| k in m && 0 <= i < |m[k]| && key in m[k][i].items;
      assert m[k][i] in e;
      var j :| 0 <= j < |e| && e[j] == m[k][i];
      assert key in Cache.ListKeys(e[j]);
    }
  }

  /** The order Go happens to iterate the map in changes the order of the
      "all" listing, never its contents. */
  lemma ListAllOrderIrrelevant(m: MapIndexers, order1: seq<string>, order2: seq<string>)
    requires Enumerates(order1, m.Keys) && Enumerates(order2, m.Keys)
    ensures multiset(List(m, All, order1)) == multiset(List(m, All, order2))
  {
    EnumerationsPermute(order1, order2, m.Keys);
    FlattenPermutation(order1, order2, k => Selected(m, k));
    FlattenPermutation(Everything(m, order1), Everything(m, order2), Cache.List);
  }

  /** The same for the "all" key listing. */
  lemma ListKeysAllOrderIrrelevant(m: MapIndexers, order1: seq<string>, order2: seq<string>)
    requires Enumerates(order1, m.Keys) && Enumerates(order2, m.Keys)
    ensures multiset(ListKeys(m, All, order1)) == multiset(ListKeys(m, All, order2))
  {
    EnumerationsPermute(order1, order2, m.Keys);
    FlattenPermutation(order1, order2, k => Selected(m, k));
    FlattenPermutation(Everything(m, order1), Everything(m, order2), Cache.ListKeys);
  }

  /** The same for the "all" lookup: the items found are a permutation of
      each other, and whether anything was found does not change. */
  lemma GetByKeyAllOrderIrrelevant(m: MapIndexers, order1: seq<string>, order2: seq<string>, key: string)
    requires Enumerates(order1, m.Keys) && Enumerates(order2, m.Keys)
    ensures multiset(GetByKey(m, All, key, order1).0) == multiset(GetByKey(m, All, key, order2).0)
    ensures GetByKey(m, All, key, order1).1 == GetByKey(m, All, key, order2).1
  {
    EnumerationsPermute(order1, order2, m.Keys);
    FlattenPermutation(order1, order2, k => Selected(m, k));
    FlattenPermutation(Everything(m, order1), Everything(m, order2), ix => Hit(ix, key));
  }

  /** The caches that report `key` without an error, in order. */
  function Finders(ixs: seq<Cache.Indexer>, key: string): (f: seq<Cache.Indexer>)
    ensures forall ix :: ix in f <==> ix in ixs && Found(ix, key)
    decreases |ixs|
  {
    if ixs == [] then []
    else if Found(ixs[0], key) then [ixs[0]] + Finders(ixs[1..], key)
    else Finders(ixs[1..], key)
  }

  /** A lookup yields one item per cache holding the key, in cache order,
      with no deduplication across sources. */
  lemma {:induction false} HitsPerSource(ixs: seq<Cache.Indexer>, key: string)
    ensures |Hits(ixs, key)| == |Finders(ixs, key)|
    ensures forall j :: 0 <= j < |Hits(ixs, key)| ==>
      Found(Finders(ixs, key)[j], key) && Hits(ixs, key)[j] == Cache.GetByKey(Finders(ixs, key)[j], key).value.value
    decreases |ixs|
  {
    if ixs != [] {
      var rest := ixs[1..];
      HitsPerSource(rest, key);
      var hs, fs := Hits(rest, key), Finders(rest, key);
      var h, f := Hits(ixs, key), Finders(ixs, key);
      assert h == Hit(ixs[0], key) + hs;
      if Found(ixs[0], key) {
        assert f == [ixs[0]] + fs;
        forall j | 1 <= j < |h|
          ensures Found(f[j], key) && h[j] == Cache.GetByKey(f[j], key).value.value
        {
          ConsIndex(Hit(ixs[0], key)[0], hs, j);
          ConsIndex(ixs[0], fs, j);
        }
      } else {
        assert h == hs && f == fs;
      }
    }
  }

  /** A cache whose lookup errors is skipped: it adds no item, does not
      raise `ok`, and does not stop the scan of the caches after it. */
  lemma {:induction false} ScanSkipsErrors(before: seq<Cache.Indexer>, ix: Cache.Indexer, after: seq<Cache.Indexer>,
                                           key: string, items: seq<Object>, ok: bool)
    requires Cache.GetByKey(ix, key).Failure?
    ensures Scan(before + [ix] + after, key, items, ok) == Scan(before + after, key, items, ok)
    decreases |before|
  {
    if before == [] {
      assert before + [ix] + after == [ix] + after;
      assert ([ix] + after)[1..] == after;
      assert before + after == after;
    } else {
      assert (before + [ix] + after)[1..] == before[1..] + [ix] + after;
      assert (before + after)[1..] == before[1..] + after;
      assert (before + [ix] + after)[0] == before[0] == (before + after)[0];
      var items' := if Found(before[0], key) then items + [Cache.GetByKey(before[0], key).value.value] else items;
      var ok' := ok || Found(before[0], key);
      ScanSkipsErrors(before[1..], ix, after, key, items', ok');
    }
  }

  /** Across concatenated caches there are as many keys as objects. */
  lemma {:induction false} KeysObjectsSameLength(ixs: seq<Cache.Indexer>)
    ensures |Keys(ixs)| == |Objects(ixs)|
    decreases |ixs|
  {
    if ixs != [] {
      KeysObjectsSameLength(ixs[1..]);
      assert |Keys(ixs)| == |Cache.ListKeys(ixs[0])| + |Keys(ixs[1..])|;
      assert |Objects(ixs)| == |Cache.List(ixs[0])| + |Objects(ixs[1..])|;
    }
  }

  /** Every listed key names an object that is listed too. */
  lemma KeyNamesListedObject(ixs: seq<Cache.Indexer>, k: string) returns (i: int)
    requires k in Keys(ixs)
    ensures 0 <= i < |ixs| && k in ixs[i].items && ixs[i].items[k] in Objects(ixs)
  {
    FlattenMember(ixs, Cache.ListKeys, k);
    i :| 0 <= i < |ixs| && k in Cache.ListKeys(ixs[i]);
    assert ixs[i].items[k] in Cache.List(ixs[i]);
    FlattenMember(ixs, Cache.List, ixs[i].items[k]);
  }

  /** Every listed object is stored under a key that is listed too. */
  lemma ObjectHasListedKey(ixs: seq<Cache.Indexer>, o: Object) returns (i: int, k: string)
    requires o in Objects(ixs)
    ensures 0 <= i < |ixs| && k in ixs[i].items && ixs[i].items[k] == o && k in Keys(ixs)
  {
    FlattenMember(ixs, Cache.List, o);
    i :| 0 <= i < |ixs| && o in Cache.List(ixs[i]);
    k :| k in ixs[i].items && ixs[i].items[k] == o;
    assert k in Cache.ListKeys(ixs[i]);
    FlattenMember(ixs, Cache.ListKeys, k);
  }

  /** Across concatenated caches there are as many keys as objects; every
      listed key names an object in the listing, and every listed object is
      stored under a listed key. No positional pairing is claimed: each
      cache ranges its map separately for the two listings. */
  lemma KeysAlignWithObjects(ixs: seq<Cache.Indexer>)
    ensures |Keys(ixs)| == |Objects(ixs)|
    ensures forall k :: k in Keys(ixs) ==>
      exists i :: 0 <= i < |ixs| && k in ixs[i].items && ixs[i].items[k] in Objects(ixs)
    ensures forall o :: o in Objects(ixs) ==>
      exists i, k :: 0 <= i < |ixs| && k in ixs[i].items && ixs[i].items[k] == o && k in Keys(ixs)
  {
    KeysObjectsSameLength(ixs);
    forall k | k in Keys(ixs)
      ensures exists i :: 0 <= i < |ixs| && k in ixs[i].items && ixs[i].items[k] in Objects(ixs)
    {
      var i := KeyNamesListedObject(ixs, k);
    }
    forall o | o in Objects(ixs)
      ensures exists i, k :: 0 <= i < |ixs| && k in ixs[i].items && ixs[i].items[k] == o && k in Keys(ixs)
    {
      var i, k := ObjectHasListedKey(ixs, o);
    }
  }

  /** For "all" and every kind `List` supports, `ListKeys` reads the same
      caches as `List`, whatever order each call ranges the map in: as many
      keys as objects, every key naming a listed object of one of those
      caches, and every listed object stored under a listed key. */
  lemma ListKeysMatchesList(m: MapIndexers, r: string, o1: seq<string>, o2: seq<string>)
    requires Enumerates(o1, m.Keys) && Enumerates(o2, m.Keys)
    requires r == All || r in ListKinds
    ensures |ListKeys(m, r, o1)| == |List(m, r, o2)|
    ensures forall k :: k in ListKeys(m, r, o1) ==>
      exists ix :: ix in ListSources(m, r, o2) && k in ix.items && ix.items[k] in List(m, r, o2)
    ensures forall o :: o in List(m, r, o2) ==>
      exists ix, k :: ix in ListSources(m, r, o1) && k in ix.items && ix.items[k] == o && k in ListKeys(m, r, o1)
  {
    var s1, s2 := ListSources(m, r, o1), ListSources(m, r, o2);
    SourcesPermute(m, r, o1, o2);
    assert ListKeys(m, r, o1) == Keys(s1) && List(m, r, o2) == Objects(s2);
    SameCachesMatch(s1, s2);
  }

  /** Key listing of some caches against object listing of the same caches
      in another order. */
  lemma SameCachesMatch(s1: seq<Cache.Indexer>, s2: seq<Cache.Indexer>)
    requires multiset(s1) == multiset(s2)
    ensures |Keys(s1)| == |Objects(s2)|
    ensures forall k :: k in Keys(s1) ==>
      exists ix :: ix in s2 && k in ix.items && ix.items[k] in Objects(s2)
    ensures forall o :: o in Objects(s2) ==>
      exists ix, k :: ix in s1 && k in ix.items && ix.items[k] == o && k in Keys(s1)
  {
    SameCachesLength(s1, s2);
    forall k | k in Keys(s1)
      ensures exists ix :: ix in s2 && k in ix.items && ix.items[k] in Objects(s2)
    {
      var ix := KeyNamesObjectElsewhere(s1, s2, k);
    }
    forall o | o in Objects(s2)
      ensures exists ix, k :: ix in s1 && k in ix.items && ix.items[k] == o && k in Keys(s1)
    {
      var ix, k := ObjectKeyedElsewhere(s1, s2, o);
    }
  }

  /** The same caches, in any order, list as many keys as objects. */
  lemma SameCachesLength(s1: seq<Cache.Indexer>, s2: seq<Cache.Indexer>)
    requires multiset(s1) == multiset(s2)
    ensures |Keys(s1)| == |Objects(s2)|
  {
    FlattenPermutation(s1, s2, Cache.ListKeys);
    assert |Keys(s1)| == |multiset(Keys(s1))| == |multiset(Keys(s2))| == |Keys(s2)|;
    KeysObjectsSameLength(s2);
  }

  /** A key one ordering lists names an object the other ordering lists. */
  lemma KeyNamesObjectElsewhere(s1: seq<Cache.Indexer>, s2: seq<Cache.Indexer>, k: string) returns (ix: Cache.Indexer)
    requires multiset(s1) == multiset(s2)
    requires k in Keys(s1)
    ensures ix in s2 && k in ix.items && ix.items[k] in Objects(s2)
  {
    FlattenPermutation(s1, s2, Cache.ListKeys);
    assert k in multiset(Keys(s2));
    var i := KeyNamesListedObject(s2, k);
    ix := s2[i];
  }

  /** An object one ordering lists is stored under a key the other lists. */
  lemma ObjectKeyedElsewhere(s1: seq<Cache.Indexer>, s2: seq<Cache.Indexer>, o: Object) returns (ix: Cache.Indexer, k: string)
    requires multiset(s1) == multiset(s2)
    requires o in Objects(s2)
    ensures ix in s1 && k in ix.items && ix.items[k] == o && k in Keys(s1)
  {
    FlattenPermutation(s1, s2, Cache.ListKeys);
    var i;
    i, k := ObjectHasListedKey(s2, o);
    assert k in multiset(Keys(s1));
    ix := s2[i];
    assert ix in multiset(s1);
  }

  /** Two map iteration orders give the same caches to read, up to order. */
  lemma SourcesPermute(m: MapIndexers, r: string, o1: seq<string>, o2: seq<string>)
    requires Enumerates(o1, m.Keys) && Enumerates(o2, m.Keys)
    ensures multiset(ListSources(m, r, o1)) == multiset(ListSources(m, r, o2))
  {
    if r == All {
      EnumerationsPermute(o1, o2, m.Keys);
      FlattenPermutation(o1, o2, k => Selected(m, k));
    }
  }

  /** The caches `List(r)` reads. */
  function ListSources(m: MapIndexers, r: string, order: seq<string>): seq<Cache.Indexer> {
    if r == All then Everything(m, order)
    else if r in ListKinds then Selected(m, r)
    else []
  }

  /** The "all" scan is the concatenation of the kinds before `order[j]`,
      the caches of `order[j]`, and the kinds after it. */
  lemma EverythingSplit(m: MapIndexers, order: seq<string>, j: int) returns (pre: seq<Cache.Indexer>, post: seq<Cache.Indexer>)
    requires 0 <= j < |order|
    ensures Everything(m, order) == pre + Selected(m, order[j]) + post
    ensures pre == Flatten(order[..j], k => Selected(m, k))
    ensures post == Flatten(order[j + 1..], k => Selected(m, k))
  {
    var left, right := order[..j], order[j + 1..];
    assert order == left + [order[j]] + right;
    FlattenAppend(left + [order[j]], right, k => Selected(m, k));
    FlattenAppend(left, [order[j]], k => Selected(m, k));
    FlattenSingleton(order[j], k => Selected(m, k));
    pre, post := Flatten(left, k => Selected(m, k)), Flatten(right, k => Selected(m, k));
  }

  /** Kinds other than `k` select the same caches once `k` is removed. */
  lemma SelectedWithout(m: MapIndexers, xs: seq<string>, k: string)
    requires forall i :: 0 <= i < |xs| ==> xs[i] != k
    ensures Flatten(xs, x => Selected(m - {k}, x)) == Flatten(xs, x => Selected(m, x))
  {
    FlattenCongruent(xs, x => Selected(m - {k}, x), x => Selected(m, x));
  }

  /** Dropping kind `order[j]` from the map and from the order drops exactly
      that kind's caches from the "all" scan. */
  lemma EverythingWithout(m: MapIndexers, order: seq<string>, j: int) returns (pre: seq<Cache.Indexer>, post: seq<Cache.Indexer>)
    requires Enumerates(order, m.Keys)
    requires 0 <= j < |order|
    ensures Enumerates(order[..j] + order[j + 1..], (m - {order[j]}).Keys)
    ensures Everything(m, order) == pre + m[order[j]] + post
    ensures Everything(m - {order[j]}, order[..j] + order[j + 1..]) == pre + post
  {
    var k := order[j];
    assert (m - {k}).Keys == m.Keys - {k};
    DropEnumerates(order, m.Keys, j);
    pre, post := EverythingSplit(m, order, j);
    SelectedWithout(m, order[..j], k);
    SelectedWithout(m, order[j + 1..], k);
    FlattenAppend(order[..j], order[j + 1..], x => Selected(m - {k}, x));
  }

  /** `List("all")` is kind `k`'s listing plus the "all" listing of the
      other kinds, as multisets: every source contributes its own copies
      and nothing is merged across kinds. */
  lemma ListAllSplitsByKind(m: MapIndexers, order: seq<string>, k: string, rest: seq<string>)
    requires Enumerates(order, m.Keys)
    requires k in m
    requires Enumerates(rest, (m - {k}).Keys)
    ensures multiset(List(m, All, order)) == multiset(Objects(m[k])) + multiset(List(m - {k}, All, rest))
  {
    var j :| 0 <= j < |order| && order[j] == k;
    var pre, post := EverythingWithout(m, order, j);
    ListAllOrderIrrelevant(m - {k}, order[..j] + order[j + 1..], rest);
    FlattenAppend(pre + m[k], post, Cache.List);
    FlattenAppend(pre, m[k], Cache.List);
    FlattenAppend(pre, post, Cache.List);
  }

  /** The same for `ListKeys("all")`. */
  lemma ListKeysAllSplitsByKind(m: MapIndexers, order: seq<string>, k: string, rest: seq<string>)
    requires Enumerates(order, m.Keys)
    requires k in m
    requires Enumerates(rest, (m - {k}).Keys)
    ensures multiset(ListKeys(m, All, order)) == multiset(Keys(m[k])) + multiset(ListKeys(m - {k}, All, rest))
  {
    var j :| 0 <= j < |order| && order[j] == k;
    var pre, post := EverythingWithout(m, order, j);
    ListKeysAllOrderIrrelevant(m - {k}, order[..j] + order[j + 1..], rest);
    FlattenAppend(pre + m[k], post, Cache.ListKeys);
    FlattenAppend(pre, m[k], Cache.ListKeys);
    FlattenAppend(pre, post, Cache.ListKeys);
  }

  /** `List("all")` and `ListKeys("all")` contain every kind's own listing
      with its multiplicities: an object or key held by several sources is
      listed once per source, never merged. */
  lemma AllKeepsEveryKind(m: MapIndexers, order: seq<string>, k: string)
    requires Enumerates(order, m.Keys)
    requires k in m
    ensures multiset(Objects(m[k])) <= multiset(List(m, All, order))
    ensures multiset(Keys(m[k])) <= multiset(ListKeys(m, All, order))
  {
    var j :| 0 <= j < |order| && order[j] == k;
    var pre, post := EverythingSplit(m, order, j);
    assert Selected(m, order[j]) == m[k];
    FlattenAppend(pre + m[k], post, Cache.List);
    FlattenAppend(pre, m[k], Cache.List);
    FlattenAppend(pre + m[k], post, Cache.ListKeys);
    FlattenAppend(pre, m[k], Cache.ListKeys);
  }

  /** A pods cache and a services cache that both hold "default/nginx":
      `ListKeys("all")` lists the key twice, once per kind. */
  lemma TwoKindsSameKey()
    ensures
      var c := Cache.Snapshot(map["default/nginx" := Object("nginx")], ["default/nginx"], ["default/nginx"], {});
      var m: MapIndexers := map[Pods := [c], Services := [c]];
      ListKeys(m, All, [Pods, Services]) == ["default/nginx", "default/nginx"]
  {
    var c := Cache.Snapshot(map["default/nginx" := Object("nginx")], ["default/nginx"], ["default/nginx"], {});
    assert Cache.WellFormed(c);
    var ix: Cache.Indexer := c;
    var m: MapIndexers := map[Pods := [ix], Services := [ix]];
    var order := [Pods, Services];
    assert Enumerates(order, m.Keys);
    FlattenAppend([Pods], [Services], k => Selected(m, k));
    assert order == [Pods] + [Services];
    FlattenSingleton(Pods, k => Selected(m, k));
    FlattenSingleton(Services, k => Selected(m, k));
    assert Everything(m, order) == [ix, ix];
    FlattenAppend([ix], [ix], Cache.ListKeys);
    FlattenSingleton(ix, Cache.ListKeys);
    assert [ix] + [ix] == [ix, ix];
  }

  /** Two clusters both holding pods "default/nginx": the lookup returns
      both copies and reports found. */
  lemma TwoClustersSameKey()
    ensures
      var nginx := Object("nginx");
      var c := Cache.Snapshot(map["default/nginx" := nginx], ["default/nginx"], ["default/nginx"], {});
      var m: MapIndexers := map[Pods := [c, c]];
      GetByKey(m, Pods, "default/nginx", [Pods]) == ([nginx, nginx], true)
  {
    var nginx := Object("nginx");
    var c := Cache.Snapshot(map["default/nginx" := nginx], ["default/nginx"], ["default/nginx"], {});
    var m: MapIndexers := map[Pods := [c, c]];
    assert Cache.WellFormed(c);
    var ix: Cache.Indexer := c;
    assert Found(ix, "default/nginx");
    assert Cache.GetByKey(ix, "default/nginx") == Success(Some(nginx));
    assert Hit(ix, "default/nginx") == [nginx];
    HitsCons(ix, [], "default/nginx");
    HitsCons(ix, [ix], "default/nginx");
    assert [ix] + [ix] == [ix, ix];
    assert Enumerates([Pods], m.Keys);
    assert Selected(m, Pods) == [ix, ix];
    var res := GetByKey(m, Pods, "default/nginx", [Pods]);
    assert res.0 == [nginx, nginx];
    assert res.1;
    assert Found([ix, ix][0], "default/nginx");
  }
}
