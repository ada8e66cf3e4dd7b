/** The older aggregated store of pkg/store.go. `List` is the same as in
    pkg/queue/store.go; `ListKeys` and `GetByKey` know only the kinds
    `List` knows, and `ListKeys("deployments")` reads the ConfigMaps caches. */
module DraftStore {
  import opened Seqs
  import opened Resource
  import Cache
  import Store

  /** `mapIndexers.List(r)`. */
  function List(m: Store.MapIndexers, r: string, order: seq<string>): (l: seq<Object>)
    requires Enumerates(order, m.Keys)
    ensures r in Store.ListKinds ==> l == Store.Objects(Store.Selected(m, r))
    ensures r == All ==> l == Store.Objects(Store.Everything(m, order))
    ensures r != All && r !in Store.ListKinds ==> l == []
  {
    Store.List(m, r, order)
  }

  /** `mapIndexers.ListKeys(r)`, as written: the Deployments case loops over
      `mapIndexer[ConfigMaps]`. */
  function ListKeys(m: Store.MapIndexers, r: string, order: seq<string>): (keys: seq<string>)
    requires Enumerates(order, m.Keys)
    ensures r in {Services, Pods, ConfigMaps} ==> keys == Store.Keys(Store.Selected(m, r))
    ensures r == Deployments ==> keys == Store.Keys(Store.Selected(m, ConfigMaps))
    ensures r == All ==> keys == Store.Keys(Store.Everything(m, order))
    ensures r != All && r !in Store.ListKinds ==> keys == []
  {
    if r == All then Store.Keys(Store.Everything(m, order))
    else if r == Services then Store.Keys(Store.Selected(m, Services))
    else if r == Pods then Store.Keys(Store.Selected(m, Pods))
    else if r == ConfigMaps then Store.Keys(Store.Selected(m, ConfigMaps))
    else if r == Deployments then Store.Keys(Store.Selected(m, ConfigMaps))
    else []
  }

  /** `mapIndexers.GetByKey(r, key)`: the same scan, over five kinds only. */
  function GetByKey(m: Store.MapIndexers, r: string, key: string, order: seq<string>): (res: (seq<Object>, bool))
    requires Enumerates(order, m.Keys)
    ensures r in Store.ListKinds ==> res.0 == Store.Hits(Store.Selected(m, r), key)
    ensures r in Store.ListKinds ==>
      (res.1 <==> exists i :: 0 <= i < |Store.Selected(m, r)| && Store.Found(Store.Selected(m, r)[i], key))
    ensures r == All ==> res.0 == Store.Hits(Store.Everything(m, order), key)
    ensures r == All ==>
      (res.1 <==> exists k, i :: k in m && 0 <= i < |m[k]| && Store.Found(m[k][i], key))
    ensures r != All && r !in Store.ListKinds ==> res == ([], false)
  {
    if r == All then Store.GetByKey(m, All, key, order)
    else if r in Store.ListKinds then Store.Scan(Store.Selected(m, r), key, [], false)
    else ([], false)
  }

  /** Beyond the five kinds the draft answers nothing, even for kinds the
      newer store serves. */
  lemma NarrowerThanStore(m: Store.MapIndexers, r: string, key: string, order: seq<string>)
    requires Enumerates(order, m.Keys)
    requires r in {Statefulsets, Daemonsets, Secrets}
    ensures ListKeys(m, r, order) == [] && GetByKey(m, r, key, order) == ([], false)
    ensures Store.ListKeys(m, r, order) == Store.Keys(Store.Selected(m, r))
  {
    assert r != All && r !in Store.ListKinds && r in Store.KeyKinds;
  }

  /** The draft's deployments keys are the configmaps keys, whatever the
      Deployments caches hold. */
  lemma DeploymentsKeysAreConfigMapsKeys(m: Store.MapIndexers, order: seq<string>)
    requires Enumerates(order, m.Keys)
    ensures ListKeys(m, Deployments, order) == Store.ListKeys(m, ConfigMaps, order)
  {
  }

  /** A concrete store where the draft's `ListKeys("deployments")` misses
      the one deployment while `List("deployments")` returns it; the newer
      store's `ListKeys` gets it right. */
  lemma DeploymentsKeysMisread()
    ensures
      var web := Object("web");
      var c := Cache.Snapshot(map["default/web" := web], ["default/web"], ["default/web"], {});
      var m: Store.MapIndexers := map[Deployments := [c]];
      && ListKeys(m, Deployments, [Deployments]) == []
      && List(m, Deployments, [Deployments]) == [web]
      && Store.ListKeys(m, Deployments, [Deployments]) == ["default/web"]
  {
    var web := Object("web");
    var c := Cache.Snapshot(map["default/web" := web], ["default/web"], ["default/web"], {});
    assert Cache.WellFormed(c);
    var ix: Cache.Indexer := c;
    var m: Store.MapIndexers := map[Deployments := [ix]];
    assert Enumerates([Deployments], m.Keys);
    assert Store.Selected(m, ConfigMaps) == [];
    assert Store.Selected(m, Deployments) == [ix];
    assert Cache.List(ix) == [web];
    FlattenSingleton(ix, Cache.List);
    FlattenSingleton(ix, Cache.ListKeys);
  }
}
