# multi-cluster-informer: a Dafny model of the event funnel and the aggregated store

The repository watches Kubernetes resources in several clusters. Each watch
callback turns an add, update or delete into a `QueueObject` record. It pushes
the record into one shared rate-limited work queue with a bounded retry
budget. A single consumer pops records, runs one registered handler on each,
and then either finishes or re-queues the record. Beside that pipeline, an
aggregated store maps a resource-kind string to the ordered list of per-cluster
local caches (`cache.Indexer`). It serves `List`, `ListKeys` and `GetByKey` by
switching on the kind and concatenating the selected caches' answers.

This project models that core and proves properties of the model:

- `Resource`: the kind and event tags and the `QueueObject` record (pkg/queue/resource.go).
- `Cache`: one local cache as the store sees it. It is a key → object map
  with two independent listing orders, one for `ListKeys()` (`keyOrder`) and
  one for `List()` (`listOrder`), and a set of keys whose lookup reports an
  error.
- `Store`: `MapIndexers.List`, `ListKeys` and `GetByKey` (pkg/queue/store.go).
  It also holds the fan-out reference definitions `Objects`, `Keys` and
  `Hits`, built on `Seqs.Flatten`.
- `DraftStore`: the older `mapIndexers` (pkg/store.go).
- `WorkQueue`: client-go's rate-limiting queue. It has a ready `queue`, a
  `dirty` set, a `processing` set, a shutdown flag and a per-item failure
  counter. Its behaviour is written as definitions, because the library is
  not part of this model.
- `Queue`: `Wq` with `Push`, `Pop`, `Finish`, `ReQueue`, `Close` and
  `SetReMaxReQueueTime` (pkg/queue/queue.go). It is generic in the item type.
- `DraftQueue`: the older `wq` over the older 4-field `QueueObject`
  (pkg/queue.go, pkg/resource.go).
- `Controller`: the handler slot (`AddEventHandler`, `HandleObject`) and the
  three informer callbacks `initHandle` builds (pkg/controller/controller.go).

Modelling choices:

- Go's `range` over a map visits kinds in an unspecified order. Every store
  operation therefore takes an `order` parameter, which must list each key of
  the map exactly once. The "all" results are proved independent of that
  order up to permutation.
- `Pop` can block. The model gives it a third outcome, `Blocked`, for the case
  where the library's `Get` would wait.
- `time.Now()` is a `now` parameter.
- The key functions `MetaNamespaceKeyFunc` and
  `DeletionHandlingMetaNamespaceKeyFunc` are abstract partial functions. A
  result of `None` means key extraction failed.
- The queue compares items by their whole value, as client-go does.
- `Statefulsets`, `Daemonsets` and `Secrets` are used by pkg/queue/store.go
  but not declared in pkg/queue/resource.go. They get the distinct tags
  "statefulsets", "daemonsets" and "secrets".

Behaviour of the code worth stating plainly:

- The queue does not coalesce records by (cluster, kind, key). Each record
  carries its creation time, and client-go compares whole values, so two
  notifications for the same object are two queue entries
  (`Controller.NoCoalescing`).
- The kinds served differ by operation. In pkg/queue/store.go, `ListKeys` and
  `GetByKey` also serve statefulsets, daemonsets and secrets, which `List`
  does not.
- `Push` itself goes through `AddRateLimited`, so the push counts against the
  re-queue ceiling. An item pushed under ceiling `n` survives `n - 1`
  re-queues and the `n`-th one fails (`Queue.PushedItemBudget`).

## Model

| member | source | states |
|---|---|---|
| `Cache.ListKeys` | pkg/queue/store.go:54 | A cache lists each stored key exactly once. |
| `Cache.List` | pkg/queue/store.go:26 | A cache lists its stored objects, one per stored key, in the order of some enumeration of the keys. There are as many objects as keys, and an object is listed iff it is stored. No positional pairing with `ListKeys` is assumed. |
| `Cache.GetByKey` | pkg/queue/store.go:101 | A lookup errors exactly on the failing keys. Otherwise it reports `exists` iff the key is listed, and the item found is the object stored under that key. |
| `Cache.FoundIsListed` | pkg/queue/store.go:101 | What a lookup finds is among the objects `List()` returns. |
| `Store.Scan` | pkg/queue/store.go:111-121 | The lookup loop skips erroring caches and appends each found item. Its items equal the reference `Hits`. `ok` ends true iff it started true or some cache found the key. |
| `Store.List` | pkg/queue/store.go:21-47 | `List("all")` concatenates `List()` over every cache of every kind, kinds in map iteration order. For services, pods, configmaps and deployments, `List` concatenates `List()` over that kind's caches, in slice order. Any other kind yields empty, including statefulsets, daemonsets, secrets, events and kinds absent from the map. |
| `Store.ListKeys` | pkg/queue/store.go:49-91 | `ListKeys("all")` concatenates `ListKeys()` over every cache of every kind, in map iteration order. The seven kinds services, pods, configmaps, deployments, statefulsets, daemonsets and secrets each read their own caches in slice order; deployments reads the Deployments caches. Events and unknown or absent kinds yield empty. |
| `Store.GetByKey` | pkg/queue/store.go:93-191 | For the seven kinds and for "all", `GetByKey` returns one item per selected cache that finds the key, in order. `ok` is true iff some selected cache reports `exists` without error. Any other kind yields `([], false)`, never an error. |
| `Store.EverythingMembers` | pkg/queue/store.go:24-25 | The "all" case visits exactly the caches registered under some kind of the map. |
| `Store.EverythingFound` | pkg/queue/store.go:98-110 | Some cache of the "all" scan finds the key iff some registered cache under some kind does. |
| `Store.ListAllExactly` | pkg/queue/store.go:23-28 | An object is in `List("all")` iff some cache under some kind lists it. |
| `Store.ListKeysAllExactly` | pkg/queue/store.go:51-56 | A key is in `ListKeys("all")` iff some cache under some kind stores it. |
| `Store.AllKeepsEveryKind` | pkg/queue/store.go:21-56 | `List("all")` and `ListKeys("all")` contain each kind's own listing with its multiplicities, as sub-multisets. |
| `Store.ListAllSplitsByKind` | pkg/queue/store.go:21-28 | As a multiset, `List("all")` is exactly kind `k`'s listing plus the `List("all")` of the store without `k`, under any order of the remaining kinds. So an object held under several kinds appears once per source; nothing is merged across kinds. |
| `Store.ListKeysAllSplitsByKind` | pkg/queue/store.go:49-56 | As a multiset, `ListKeys("all")` is exactly kind `k`'s keys plus the `ListKeys("all")` of the store without `k`. A key held under several kinds is listed once per source. |
| `Store.TwoKindsSameKey` | pkg/queue/store.go:49-56 | A pods cache and a services cache both hold "default/nginx", and `ListKeys("all")` lists that key twice. |
| `Store.ListAllOrderIrrelevant` | pkg/queue/store.go:23-28 | Two map iteration orders give "all" listings that are equal as multisets: only the order of the objects depends on the iteration. |
| `Store.ListKeysAllOrderIrrelevant` | pkg/queue/store.go:51-56 | Two map iteration orders give "all" key listings that are equal as multisets. |
| `Store.GetByKeyAllOrderIrrelevant` | pkg/queue/store.go:98-110 | Two map iteration orders give "all" lookups whose items are equal as multisets, with the same `ok`. |
| `Store.HitsPerSource` | pkg/queue/store.go:117-120 | A lookup yields exactly one item per cache that reports `exists`, in cache order. Two caches holding the key give two items, with no deduplication. |
| `Store.ScanSkipsErrors` | pkg/queue/store.go:101-104 | Inserting an erroring cache anywhere changes neither the items nor `ok`. The scan does not stop at the error. |
| `Store.KeysAlignWithObjects` | pkg/queue/store.go:26 | Concatenated caches list as many keys as objects. Every listed key names a listed object of one of the caches, and every listed object is stored under a listed key. |
| `Store.KeysObjectsSameLength` | pkg/queue/store.go:26 | Concatenated caches list as many keys as objects. |
| `Store.ListKeysMatchesList` | pkg/queue/store.go:49-91 | For "all" and every kind `List` serves, `ListKeys` reads the same caches as `List`, whatever order each call ranges the map in. The two give as many keys as objects. Every key names a listed object of one of those caches, and every listed object is stored under a listed key. |
| `Store.TwoClustersSameKey` | pkg/queue/store.go:122-132 | Two caches under "pods" both hold "default/nginx". The lookup returns both objects and reports found. |
| `Store.Finders` | pkg/queue/store.go:117 | The caches that report `exists` are exactly the selected caches whose lookup finds the key without error. |
| `DraftStore.List` | pkg/store.go:18-44 | The older `List` serves exactly all, services, pods, configmaps and deployments, concatenating in cache order. Other kinds yield empty. |
| `DraftStore.ListKeys` | pkg/store.go:46-73 | `ListKeys("all")` concatenates the keys of every cache. Services, pods and configmaps read their own caches. Deployments reads the ConfigMaps caches. Other kinds yield empty. |
| `DraftStore.GetByKey` | pkg/store.go:75-140 | Only five kinds are served: all, services, pods, configmaps and deployments. Each returns one item per finding cache, and `ok` is true iff some cache reports `exists` without error. Other kinds yield `([], false)`. |
| `DraftStore.NarrowerThanStore` | pkg/store.go:79-139 | For statefulsets, daemonsets and secrets the older store answers empty, while the newer `ListKeys` serves them. |
| `DraftStore.DeploymentsKeysAreConfigMapsKeys` | pkg/store.go:67-70 | The older `ListKeys("deployments")` always equals the newer store's `ListKeys("configmaps")`, whatever the Deployments caches hold. |
| `DraftStore.DeploymentsKeysMisread` | pkg/store.go:67-70 | Take a store with one deployment and no configmaps. The older `ListKeys("deployments")` is empty, `List("deployments")` returns the deployment, and the newer `ListKeys` returns its key. |
| `WorkQueue.New` | pkg/queue/queue.go:33 | A new library queue is empty, not shut down and invariant-respecting, with every counter at zero. |
| `WorkQueue.Add` | pkg/queue/queue.go:41 | An add appends only when the queue is not shut down and an equal item is neither dirty nor processing. It preserves the library invariant. |
| `WorkQueue.AddRateLimited` | pkg/queue/queue.go:41 | A rate-limited add raises the item's counter by one and leaves other counters alone. Then it adds the item: appended iff admitted, marked dirty unless shut down, processing and shutdown unchanged. It preserves the invariant. |
| `WorkQueue.Forget` | pkg/queue/queue.go:55 | `Forget` zeroes the item's counter and changes nothing else. |
| `WorkQueue.Get` | pkg/queue/queue.go:46 | `Get` hands out an item iff one is ready, and then it is the head. The head leaves the ready queue and dirty and enters processing. With none ready, nothing changes and it reports shutdown iff the queue is shut down. Counters are unchanged and the invariant is preserved. |
| `WorkQueue.Done` | pkg/queue/queue.go:56 | `Done` removes exactly that item from processing and leaves dirty alone. If the item was added again meanwhile, it is appended to the ready queue. |
| `WorkQueue.ShutDown` | pkg/queue/queue.go:73 | Shutdown sets the flag and leaves the queued items and counters alone. |
| `Queue.NewWorkQueue` | pkg/queue/queue.go:32-37 | A new queue is empty, has the given ceiling, and has every requeue counter at zero. |
| `Queue.Push` | pkg/queue/queue.go:40-42 | A push is a rate-limited add. The item's requeue counter rises by one, so the push counts against the ceiling, and other counters are unchanged. The item is appended iff the queue admits it. |
| `Queue.Pop` | pkg/queue/queue.go:45-51 | `Pop` returns the zero item and the "has been stoped" error iff the queue is shut down and drained. It blocks iff the queue is empty and open. Otherwise it returns the head, which leaves the ready queue and dirty and enters processing. Counters, shutdown and the ceiling are unchanged. |
| `Queue.Finish` | pkg/queue/queue.go:54-57 | `Finish` forgets then marks done. The item's counter is zero and only that item leaves processing. Dirty and other counters are unchanged, and the item is queued again iff it was added meanwhile. |
| `Queue.ReQueue` | pkg/queue/queue.go:60-70 | `ReQueue` succeeds iff the item's requeue count is below `MaxReQueueTime`. Success is exactly a `Push` and leaves processing untouched, with no `Done`. Failure is exactly `Finish` plus the "requeued for many times" error. A ceiling at or below 0 always fails. |
| `Queue.Close` | pkg/queue/queue.go:72-74 | `Close` sets shutdown and changes nothing else. |
| `Queue.SetReMaxReQueueTime` | pkg/queue/queue.go:76-78 | Only the ceiling changes; queue contents and counters are unchanged. |
| `Queue.ReQueueBudget` | pkg/queue/queue.go:60-65 | With `k` re-queues left below the ceiling, `k + 1` consecutive `ReQueue` calls succeed `k` times and then fail. |
| `Queue.PushedItemBudget` | pkg/queue/queue.go:40-65 | An item pushed into a fresh queue with ceiling `n` survives `n - 1` re-queues, and the `n`-th fails. |
| `Queue.ReQueueStrands` | pkg/queue/queue.go:62-64 | Re-queueing a popped item below the ceiling reports success. The item stays processing and is only marked dirty; it is not ready. |
| `Queue.StrandedNeverPopped` | pkg/queue/queue.go:45-51 | A stranded item stays stranded through `Pop`, `Push`, `Close`, `SetReMaxReQueueTime`, and `Finish` or `ReQueue` of other items. `Pop` never returns it. |
| `Queue.ReQueueDone` | pkg/queue/queue.go:60-70 | In the corrected re-queue, success raises the counter and ends processing. A popped item is appended to the ready queue. Failure is unchanged. |
| `Queue.BoundedRetries` | pkg/queue/queue.go:60-70 | With the corrected re-queue, a handler that always fails sees the item `k + 1` times and re-queues it `k` times. Then the item is dropped: the queue is empty and the counter is zero. |
| `Queue.ReQueueStallsRetries` | pkg/queue/queue.go:60-65 | With `ReQueue` as written, the same failing item with budget left is re-queued once, and then the next `Pop` blocks. |
| `Queue.RequeuedItemNotRedelivered` | pkg/queue/queue.go:60-65 | Push 7 under ceiling 3, pop it and re-queue it, which returns nil. The next `Pop` blocks. |
| `DraftQueue.newWorkQueue` | pkg/queue.go:32-37 | A new queue is empty, open and invariant-respecting, with nothing dirty or processing, the given ceiling and zero counters. |
| `DraftQueue.push` | pkg/queue.go:40-42 | `push` raises the item's counter by one and no other. It appends the item iff the queue admits it and marks it dirty unless shut down. Processing, shutdown and the ceiling are unchanged. |
| `DraftQueue.Pop` | pkg/queue.go:45-51 | `Pop` returns the stopped error with the zero 4-field record iff the queue is shut down and drained, and blocks iff it is empty and open; then nothing changes. Otherwise it returns the head, which leaves the ready queue and dirty and enters processing. Counters and the ceiling are unchanged. |
| `DraftQueue.Finish` | pkg/queue.go:54-57 | `Finish` zeroes the item's counter and removes only it from processing. Dirty and other counters are unchanged, and the item is queued again iff it was added meanwhile. |
| `DraftQueue.ReQueue` | pkg/queue.go:60-70 | `ReQueue` succeeds iff the count is below the ceiling. Success is exactly `push` and leaves processing untouched. Failure is exactly `Finish` plus the error. A ceiling at or below 0 always fails. |
| `DraftQueue.close` | pkg/queue.go:72-74 | `close` sets shutdown and changes nothing else. |
| `DraftQueue.SetReMaxReQueueTime` | pkg/queue.go:76-78 | Only the ceiling changes. |
| `Controller.AddEventHandler` | pkg/controller/controller.go:110-112 | The slot holds exactly the handler given, nil included. After a registration `HandleObject` answers as that handler does, and after a nil one it returns nil. Queue and store are unchanged. |
| `Controller.HandleObject` | pkg/controller/controller.go:114-120 | With no handler the result is nil. Otherwise it is exactly the handler's result for that record. |
| `Controller.LastHandlerWins` | pkg/controller/controller.go:110-112 | Of two registrations the second wins, and a nil second one clears the first. Handlers are not chained. |
| `Controller.Record` | pkg/controller/controller.go:61-64 | The record carries the captured cluster and resource, the event, the key and the timestamp. `Obj` is set iff `isObjSave`, and then it is the object. |
| `Controller.AddEvent` | pkg/controller/controller.go:58-67 | The add callback builds a record iff the namespace key can be extracted. It is tagged "add", keyed by that key, and carries the object only when `isObjSave`. |
| `Controller.UpdateEvent` | pkg/controller/controller.go:68-79 | The update callback keys on and stores the new object. It builds a record iff the new object's key can be extracted. |
| `Controller.DeleteEvent` | pkg/controller/controller.go:80-90 | The delete callback uses the deletion-handling key function. It builds a record tagged "delete" iff that key can be extracted. |
| `Controller.Pop` | pkg/queue/queue.go:45-51 | `Pop` on the controller's queue of records returns Go's zero `QueueObject{}`, with no object, and the stopped error iff the queue is shut down and drained. It blocks iff the queue is empty and open, and otherwise hands out the head with the same next state as `Queue.Pop`. |
| `Controller.Deliver` | pkg/controller/controller.go:65 | A callback pushes nothing when no record was built. Otherwise it makes exactly one push: that record's counter rises by one, it is appended iff the queue admits it and marked dirty unless shut down, and the invariant is preserved. |
| `Controller.AddFunc` | pkg/controller/controller.go:58-67 | The add callback leaves the queue unchanged when the namespace key cannot be extracted. Otherwise it is one `Push` of the "add" record for that key. |
| `Controller.UpdateFunc` | pkg/controller/controller.go:68-79 | The update callback leaves the queue unchanged when the new object's key cannot be extracted. Otherwise it is one `Push` of the "update" record keyed by and carrying the new object. |
| `Controller.DeleteFunc` | pkg/controller/controller.go:80-90 | The delete callback leaves the queue unchanged when the deletion-handling key cannot be extracted. Otherwise it is one `Push` of the "delete" record for that key. |
| `Controller.UpdateIgnoresOld` | pkg/controller/controller.go:68-79 | The old object of an update has no effect on what is queued. |
| `Controller.DeleteQueuedForTombstone` | pkg/controller/controller.go:80-90 | Take an object whose plain key fails but whose deletion key succeeds. An add pushes nothing, and a delete queues one record keyed by the deletion key. |
| `Controller.NoCoalescing` | pkg/controller/controller.go:58-67 | Two adds of the same object at different instants share cluster, kind and key. Both records are queued, in order. |

## Left out

- `Run`, `Stop` and `InformerList.run` (pkg/controller/controller.go:96-134) are left out. They are goroutines, channels, `WaitForCacheSync` and a panic on a sync abort, so their point is concurrency.
- Informer and client construction is left out: `CreateCoreV1IndexInformer`, `CreateAppsV1IndexInformer`, the `CreateAll*` functions and `NewClient`. This is client-go list/watch setup, kubeconfig loading and network I/O.
- pkg/controller.go, pkg/multi_informer.go, pkg/config/config.go and main.go are not part of this model. They are construction wiring, YAML and file I/O, and the process entry point. The consumer loop of main.go appears only as the always-failing rounds of `Queue.FailRounds`.
- Rate-limiter delays are not modelled. A rate-limited add becomes visible at once; only its effect on the failure counter is kept. In client-go, an add still inside its delay when the queue shuts down is dropped, and a retry with a longer back-off can be overtaken by later pushes. The model's `Pop` instead hands out every rate-limited add, in push order.
- Every cache in the store is assumed non-nil. With a named namespace, pkg/multi_informer.go:98 stores a nil indexer for kinds the `Create*IndexInformer` switches do not handle (secrets, events, statefulsets, daemonsets; pkg/controller/controller.go:152-173). The store then calls `List()`, `ListKeys()` or `GetByKey()` on it without a nil check (pkg/queue/store.go:26, 54, 101), and Go panics. The model has no nil cache, so it does not model that panic, for "all" or for the kind itself.
- The library queue's metrics are not modelled. Neither is the drain-on-shutdown variant of newer client-go versions.
- Go's map iteration order is the `order` parameter of each store call. Each cache's two listings have their own orders, `Cache.Snapshot.keyOrder` and `Cache.Snapshot.listOrder`, fixed per snapshot. In Go, a repeated call on an unchanged cache may come out in another order; the contracts never depend on a particular order.
- A cache lookup's error text is a placeholder, because the store discards it.
- Object payloads are opaque: `Resource.Object` carries only an identity.

## Findings

| source | as written | input that shows it | evidently intended | confidence | as-written member | corrected member |
|---|---|---|---|---|---|---|
| pkg/store.go:67-70 | The `Deployments` case of `ListKeys` ranges over `mapIndexer[ConfigMaps]` | One Deployments cache holding "default/web" and no ConfigMaps caches: `ListKeys("deployments")` is empty, while `List("deployments")` returns the deployment | Range over `mapIndexer[Deployments]`, as pkg/queue/store.go:70-73 does, so that `ListKeys("deployments")` lists the keys of the caches `List("deployments")` lists | high; not executed | `DraftStore.DeploymentsKeysMisread` | `Store.ListKeys` |
| pkg/queue/queue.go:62-64 | The success branch of `ReQueue` calls `AddRateLimited` but never `Done`, so the popped item stays in processing and the re-add only marks it dirty | Push x under ceiling 3, `Pop` returns x, `ReQueue(x)` returns nil; the next `Pop` blocks and x is never handed out again | Call `Done` after the re-add, as `Finish` and the exhaustion branch do, so the item is queued again until its budget runs out | medium (rests on client-go's add/done rules, written here as definitions); not executed | `Queue.RequeuedItemNotRedelivered` | `Queue.BoundedRetries` |
