/** The controller of pkg/controller/controller.go, as far as its own
    logic goes: the single handler slot, and the informer callbacks built by
    `initHandle` that turn watch notifications into queued records. */
module Controller {
  import opened Wrappers
  import opened Resource
  import opened WorkQueue
  import Queue
  import Store

  /** `HandleFunc`: the business logic for one queued record; its error
      decides between `Finish` and `ReQueue`. */
  type HandleFunc = QueueObject -> Outcome

  /** The part of `Controller` modelled here: the handler slot, the shared
      work queue and the aggregated store. */
  datatype Controller = Controller(
    handleFunc: Option<HandleFunc>,
    worker: Queue.Wq<QueueObject>,
    store: Store.MapIndexers
  )

  /** `AddEventHandler`: the slot is overwritten, also by a nil handler
      (`None`), which empties it; nothing else changes. */
  function AddEventHandler(c: Controller, handler: Option<HandleFunc>): (r: Controller)
    ensures r.handleFunc == handler
    ensures handler.Some? ==> forall obj :: HandleObject(r, obj) == handler.value(obj)
    ensures handler.None? ==> forall obj :: HandleObject(r, obj) == Pass
    ensures r.worker == c.worker && r.store == c.store
  {
    c.(handleFunc := handler)
  }

  /** `HandleObject`: the handler's verdict, or nil when none is registered. */
  function HandleObject(c: Controller, obj: QueueObject): (r: Outcome)
    ensures c.handleFunc.None? ==> r == Pass
    ensures c.handleFunc.Some? ==> r == c.handleFunc.value(obj)
  {
    match c.handleFunc
    case None => Pass
    case Some(handle) => handle(obj)
  }

  /** The last registration wins; earlier handlers are not chained, and a
      nil registration undoes an earlier one. */
  lemma LastHandlerWins(c: Controller, first: HandleFunc, second: Option<HandleFunc>, obj: QueueObject)
    ensures HandleObject(AddEventHandler(AddEventHandler(c, Some(first)), second), obj)
      == if second.Some? then second.value(obj) else Pass
  {
  }

  /** The key functions of client-go's cache package, as partial functions
      (`None` is an extraction error): `MetaNamespaceKeyFunc` and
      `DeletionHandlingMetaNamespaceKeyFunc`. */
  datatype KeyFuncs = KeyFuncs(
    metaNamespaceKey: Object -> Option<string>,
    deletionHandlingKey: Object -> Option<string>
  )

  /** What the callbacks returned by `initHandle` capture besides the queue. */
  datatype Handle = Handle(resource: string, clusterName: string, isObjSave: bool)

  /** `qo` is the record a callback builds for `obj`: tagged with the
      captured cluster and resource, stamped `now`, carrying `obj` only when
      objects are to be saved. */
  predicate Describes(qo: QueueObject, h: Handle, event: string, key: string, obj: Object, now: Time) {
    && qo.clusterName == h.clusterName
    && qo.event == event
    && qo.resourceType == h.resource
    && qo.key == key
    && qo.createAt == now
    && (qo.obj.Some? <==> h.isObjSave)
    && (qo.obj.Some? ==> qo.obj.value == obj)
  }

  /** Builds the record; `Obj` is set only when `isObjSave`. */
  function Record(h: Handle, event: string, key: string, obj: Object, now: Time): (qo: QueueObject)
    ensures Describes(qo, h, event, key, obj, now)
  {
    var qo := QueueObject(h.clusterName, event, h.resource, key, None, now);
    if h.isObjSave then qo.(obj := Some(obj)) else qo
  }

  /** The record `AddFunc` pushes, if any. */
  function AddEvent(h: Handle, keys: KeyFuncs, obj: Object, now: Time): (e: Option<QueueObject>)
    ensures e.Some? <==> keys.metaNamespaceKey(obj).Some?
    ensures e.Some? ==> Describes(e.value, h, EventAdd, keys.metaNamespaceKey(obj).value, obj, now)
  {
    match keys.metaNamespaceKey(obj)
    case Some(key) => Some(Record(h, EventAdd, key, obj, now))
    case None => None
  }

  /** The record `UpdateFunc` pushes, if any: keyed on and carrying the new
      object. */
  function UpdateEvent(h: Handle, keys: KeyFuncs, oldObj: Object, newObj: Object, now: Time): (e: Option<QueueObject>)
    ensures e.Some? <==> keys.metaNamespaceKey(newObj).Some?
    ensures e.Some? ==> Describes(e.value, h, EventUpdate, keys.metaNamespaceKey(newObj).value, newObj, now)
  {
    match keys.metaNamespaceKey(newObj)
    case Some(key) => Some(Record(h, EventUpdate, key, newObj, now))
    case None => None
  }

  /** The record `DeleteFunc` pushes, if any: keyed by the deletion-handling
      key function. */
  function DeleteEvent(h: Handle, keys: KeyFuncs, obj: Object, now: Time): (e: Option<QueueObject>)
    ensures e.Some? <==> keys.deletionHandlingKey(obj).Some?
    ensures e.Some? ==> Describes(e.value, h, EventDelete, keys.deletionHandlingKey(obj).value, obj, now)
  {
    match keys.deletionHandlingKey(obj)
    case Some(key) => Some(Record(h, EventDelete, key, obj, now))
    case None => None
  }

  /** `Wq.Pop` on the controller's queue of records: once the queue is shut
      down and drained it returns Go's zero record `QueueObject{}` with the
      stopped error. */
  function Pop(w: Queue.Wq<QueueObject>): (r: (Queue.Wq<QueueObject>, Queue.PopResult<QueueObject>))
    ensures r.1.Stopped? <==> w.q.queue == [] && w.q.shuttingDown
    ensures r.1.Stopped? ==> r.1.obj == ZeroQueueObject && r.1.obj.obj.None? && r.1.err == Queue.ErrStopped
    ensures r.1.Blocked? <==> w.q.queue == [] && !w.q.shuttingDown
    ensures !r.1.Popped? ==> r.0 == w
    ensures r.1.Popped? ==>
      && r.1.obj == w.q.queue[0]
      && r.0.q.queue == w.q.queue[1..]
      && r.0.q.processing == w.q.processing + {r.1.obj}
      && r.0.q.dirty == w.q.dirty - {r.1.obj}
    ensures r.0.q.failures == w.q.failures && r.0.q.shuttingDown == w.q.shuttingDown
    ensures r.0.maxReQueueTime == w.maxReQueueTime
    ensures Valid(w.q) ==> Valid(r.0.q)
  {
    Queue.Pop(w, ZeroQueueObject)
  }

  /** A callback's effect on the worker: one `Push` of its record, or
      nothing when the key could not be extracted. */
  function Deliver(w: Queue.Wq<QueueObject>, e: Option<QueueObject>): (r: Queue.Wq<QueueObject>)
    ensures e.None? ==> r == w
    ensures e.Some? ==> NumRequeues(r.q, e.value) == NumRequeues(w.q, e.value) + 1
    ensures forall x :: e != Some(x) ==> NumRequeues(r.q, x) == NumRequeues(w.q, x)
    ensures e.Some? ==> r.q.queue == w.q.queue + (if Admits(w.q, e.value) then [e.value] else [])
    ensures e.Some? ==> r.q.dirty == if w.q.shuttingDown then w.q.dirty else w.q.dirty + {e.value}
    ensures r.q.processing == w.q.processing && r.q.shuttingDown == w.q.shuttingDown
    ensures r.maxReQueueTime == w.maxReQueueTime
    ensures Valid(w.q) ==> Valid(r.q)
  {
    match e
    case None => w
    case Some(qo) => Queue.Push(w, qo)
  }

  /** `AddFunc`: one push of the "add" record keyed by the namespace key, or
      no change when that key cannot be extracted. */
  function AddFunc(h: Handle, keys: KeyFuncs, w: Queue.Wq<QueueObject>, obj: Object, now: Time): (r: Queue.Wq<QueueObject>)
    ensures keys.metaNamespaceKey(obj).None? ==> r == w
    ensures keys.metaNamespaceKey(obj).Some? ==>
      r == Queue.Push(w, Record(h, EventAdd, keys.metaNamespaceKey(obj).value, obj, now))
  {
    Deliver(w, AddEvent(h, keys, obj, now))
  }

  /** `UpdateFunc`: one push of the "update" record keyed by and carrying the
      new object, or no change when its key cannot be extracted. */
  function UpdateFunc(h: Handle, keys: KeyFuncs, w: Queue.Wq<QueueObject>, oldObj: Object, newObj: Object, now: Time): (r: Queue.Wq<QueueObject>)
    ensures keys.metaNamespaceKey(newObj).None? ==> r == w
    ensures keys.metaNamespaceKey(newObj).Some? ==>
      r == Queue.Push(w, Record(h, EventUpdate, keys.metaNamespaceKey(newObj).value, newObj, now))
  {
    Deliver(w, UpdateEvent(h, keys, oldObj, newObj, now))
  }

  /** `DeleteFunc`: one push of the "delete" record keyed by the
      deletion-handling key, or no change when that key cannot be extracted. */
  function DeleteFunc(h: Handle, keys: KeyFuncs, w: Queue.Wq<QueueObject>, obj: Object, now: Time): (r: Queue.Wq<QueueObject>)
    ensures keys.deletionHandlingKey(obj).None? ==> r == w
    ensures keys.deletionHandlingKey(obj).Some? ==>
      r == Queue.Push(w, Record(h, EventDelete, keys.deletionHandlingKey(obj).value, obj, now))
  {
    Deliver(w, DeleteEvent(h, keys, obj, now))
  }

  /** The old object of an update plays no part in what is queued. */
  lemma UpdateIgnoresOld(h: Handle, keys: KeyFuncs, w: Queue.Wq<QueueObject>, old1: Object, old2: Object, newObj: Object, now: Time)
    ensures UpdateFunc(h, keys, w, old1, newObj, now) == UpdateFunc(h, keys, w, old2, newObj, now)
  {
  }

  /** A delete is queued whenever the deletion-handling key can be
      extracted, even when the plain key cannot (a tombstone). */
  lemma DeleteQueuedForTombstone(h: Handle, keys: KeyFuncs, w: Queue.Wq<QueueObject>, obj: Object, now: Time)
    requires keys.metaNamespaceKey(obj).None? && keys.deletionHandlingKey(obj).Some?
    requires !w.q.shuttingDown
    requires forall x :: x in w.q.dirty || x in w.q.processing ==> x.createAt != now
    ensures AddFunc(h, keys, w, obj, now) == w
    ensures DeleteFunc(h, keys, w, obj, now).q.queue == w.q.queue + [DeleteEvent(h, keys, obj, now).value]
    ensures DeleteEvent(h, keys, obj, now).value.key == keys.deletionHandlingKey(obj).value
  {
    var qo := DeleteEvent(h, keys, obj, now).value;
    assert Admits(w.q, qo);
  }

  /** Two notifications for the same object at different instants give
      different records, and both are queued: nothing is coalesced by
      cluster, kind and key. */
  lemma NoCoalescing(h: Handle, keys: KeyFuncs, w: Queue.Wq<QueueObject>, obj: Object, t1: Time, t2: Time)
    requires keys.metaNamespaceKey(obj).Some?
    requires t1 != t2
    requires !w.q.shuttingDown && w.q.queue == [] && w.q.dirty == {} && w.q.processing == {}
    ensures
      var e1 := AddEvent(h, keys, obj, t1).value;
      var e2 := AddEvent(h, keys, obj, t2).value;
      && e1.key == e2.key && e1.clusterName == e2.clusterName && e1.resourceType == e2.resourceType
      && AddFunc(h, keys, AddFunc(h, keys, w, obj, t1), obj, t2).q.queue == [e1, e2]
  {
    var e1 := AddEvent(h, keys, obj, t1).value;
    var e2 := AddEvent(h, keys, obj, t2).value;
    assert e1 != e2;
    var w1 := Queue.Push(w, e1);
    assert Admits(w.q, e1);
    assert w1.q.queue == [e1] && w1.q.dirty == {e1};
    assert Admits(w1.q, e2);
    assert Queue.Push(w1, e2).q.queue == [e1, e2];
  }
}
