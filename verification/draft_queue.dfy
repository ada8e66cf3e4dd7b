/** The older work queue of pkg/queue.go over the older queued record of
    pkg/resource.go. The retry policy is the same as in pkg/queue/queue.go;
    only the item type and the lower-case `push`/`close` differ. */
module DraftQueue {
  import opened Wrappers
  import opened WorkQueue
  import Resource
  import Queue

  /** `QueueObject` of pkg/resource.go: no cluster name and no object. */
  datatype QueueObject = QueueObject(event: string, resourceType: string, key: string, createAt: Resource.Time)

  const ZeroQueueObject: QueueObject := QueueObject("", "", "", 0)

  /** `wq`. */
  type Wq = Queue.Wq<QueueObject>

  /** `newWorkQueue(maxReQueueTime)`. */
  function newWorkQueue(maxReQueueTime: int): (w: Wq)
    ensures Valid(w.q)
    ensures w.q.queue == [] && w.q.dirty == {} && w.q.processing == {} && !w.q.shuttingDown
    ensures w.maxReQueueTime == maxReQueueTime
    ensures forall x :: NumRequeues(w.q, x) == 0
  {
    Queue.NewWorkQueue(maxReQueueTime)
  }

  /** `push`: a rate-limited add, counted against the ceiling. */
  function push(w: Wq, obj: QueueObject): (r: Wq)
    ensures NumRequeues(r.q, obj) == NumRequeues(w.q, obj) + 1
    ensures forall y :: y != obj ==> NumRequeues(r.q, y) == NumRequeues(w.q, y)
    ensures r.q.queue == w.q.queue + (if Admits(w.q, obj) then [obj] else [])
    ensures r.q.dirty == if w.q.shuttingDown then w.q.dirty else w.q.dirty + {obj}
    ensures r.q.processing == w.q.processing && r.q.shuttingDown == w.q.shuttingDown
    ensures r.maxReQueueTime == w.maxReQueueTime
    ensures Valid(w.q) ==> Valid(r.q)
  {
    Queue.Push(w, obj)
  }

  /** `Pop`: the stopped error and a zero record exactly when the library
      queue is shut down and drained. */
  function Pop(w: Wq): (r: (Wq, Queue.PopResult<QueueObject>))
    ensures r.1.Stopped? <==> w.q.queue == [] && w.q.shuttingDown
    ensures r.1.Stopped? ==> r.1.obj == ZeroQueueObject && r.1.err == Queue.ErrStopped
    ensures r.1.Blocked? <==> w.q.queue == [] && !w.q.shuttingDown
    ensures !r.1.Popped? ==> r.0 == w
    ensures r.1.Popped? ==>
      && r.1.obj == w.q.queue[0]
      && r.0.q.queue == w.q.queue[1..]
      && r.0.q.processing == w.q.processing + {r.1.obj}
      && r.0.q.dirty == w.q.dirty - {r.1.obj}
    ensures r.0.q.failures == w.q.failures && r.0.q.shuttingDown == w.q.shuttingDown
    ensures r.0.maxReQueueTime == w.maxReQueueTime
    ensures Valid(w.q) ==> Valid(r.0.q)
  {
    Queue.Pop(w, ZeroQueueObject)
  }

  /** `Finish`: forget, then done. */
  function Finish(w: Wq, obj: QueueObject): (r: Wq)
    ensures NumRequeues(r.q, obj) == 0
    ensures forall y :: y != obj ==> NumRequeues(r.q, y) == NumRequeues(w.q, y)
    ensures r.q.processing == w.q.processing - {obj}
    ensures r.q.dirty == w.q.dirty
    ensures r.q.queue == w.q.queue + (if obj in w.q.dirty then [obj] else [])
    ensures r.q.shuttingDown == w.q.shuttingDown && r.maxReQueueTime == w.maxReQueueTime
  {
    Queue.Finish(w, obj)
  }

  /** `ReQueue`: re-added through `push` below the ceiling, without being
      marked done; dropped exactly as `Finish` would, with an error, at it. */
  function ReQueue(w: Wq, obj: QueueObject): (r: (Wq, Outcome))
    ensures r.1.Pass? <==> NumRequeues(w.q, obj) < w.maxReQueueTime
    ensures r.1.Pass? ==> r.0 == push(w, obj)
    ensures r.1.Pass? ==> r.0.q.processing == w.q.processing
    ensures r.1.Fail? ==> r.1.error == Queue.ErrRequeuedTooOften && r.0 == Finish(w, obj)
    ensures w.maxReQueueTime <= 0 ==> r.1.Fail?
  {
    Queue.ReQueue(w, obj)
  }

  /** `close`: shuts the library queue down; nothing else changes. */
  function close(w: Wq): (r: Wq)
    ensures r.q.shuttingDown
    ensures r.q.queue == w.q.queue && r.q.dirty == w.q.dirty && r.q.processing == w.q.processing
    ensures r.q.failures == w.q.failures && r.maxReQueueTime == w.maxReQueueTime
  {
    Queue.Close(w)
  }

  /** `SetReMaxReQueueTime`: only the ceiling changes. */
  function SetReMaxReQueueTime(w: Wq, maxReQueueTime: int): (r: Wq)
    ensures r.q == w.q && r.maxReQueueTime == maxReQueueTime
  {
    Queue.SetReMaxReQueueTime(w, maxReQueueTime)
  }
}
