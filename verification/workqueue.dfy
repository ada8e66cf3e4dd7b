/** The rate-limiting work queue the wrapper embeds (client-go's
    `workqueue.RateLimitingInterface` over an item-based rate limiter).
    That library is not part of this model; its observable behaviour is
    stated here as definitions over an abstract state:
    - `queue`: items ready for `Get`, in order;
    - `dirty`: items added and not yet handed out;
    - `processing`: items handed out by `Get` and not yet `Done`;
    - `failures`: the per-item counter `When` (called by `AddRateLimited`)
      increments, `Forget` clears and `NumRequeues` reads.
    Items are compared by value, the whole item. Rate-limiter delays are
    not modelled: a rate-limited add becomes visible at once. */
module WorkQueue {
  import opened Seqs

  datatype RateLimitingQueue<T(==)> = RateLimitingQueue(
    queue: seq<T>,
    dirty: set<T>,
    processing: set<T>,
    shuttingDown: bool,
    failures: map<T, nat>
  )

  /** The library's own invariant: an item waits in `queue` exactly when it
      is dirty and not being processed, and waits there once. */
  predicate Valid<T(==)>(q: RateLimitingQueue<T>) {
    && NoDup(q.queue)
    && (forall x :: x in q.queue ==> x in q.dirty && x !in q.processing)
    && (forall x :: x in q.dirty && x !in q.processing ==> x in q.queue)
  }

  function New<T(==,!new)>(): (q: RateLimitingQueue<T>)
    ensures Valid(q)
    ensures q.queue == [] && q.dirty == {} && q.processing == {} && !q.shuttingDown
    ensures forall x :: NumRequeues(q, x) == 0
  {
    RateLimitingQueue([], {}, {}, false, map[])
  }

  function NumRequeues<T(==)>(q: RateLimitingQueue<T>, x: T): nat {
    if x in q.failures then q.failures[x] else 0
  }

  /** `Add` appends `x` only when this holds. */
  predicate Admits<T(==)>(q: RateLimitingQueue<T>, x: T) {
    !q.shuttingDown && x !in q.dirty && x !in q.processing
  }

  /** `Add`: ignored after shutdown or while an equal item is dirty; while an
      equal item is being processed it is only marked dirty. */
  function Add<T(==)>(q: RateLimitingQueue<T>, x: T): (r: RateLimitingQueue<T>)
    ensures Valid(q) ==> Valid(r)
    ensures r.queue == q.queue + (if Admits(q, x) then [x] else [])
    ensures r.dirty == if q.shuttingDown then q.dirty else q.dirty + {x}
    ensures r.processing == q.processing && r.shuttingDown == q.shuttingDown && r.failures == q.failures
  {
    if q.shuttingDown || x in q.dirty then q
    else if x in q.processing then q.(dirty := q.dirty + {x})
    else q.(dirty := q.dirty + {x}, queue := q.queue + [x])
  }

  /** `AddRateLimited`: the limiter's `When` counts one more failure for `x`
      (even after shutdown), then `x` is added. */
  function AddRateLimited<T(==,!new)>(q: RateLimitingQueue<T>, x: T): (r: RateLimitingQueue<T>)
    ensures Valid(q) ==> Valid(r)
    ensures NumRequeues(r, x) == NumRequeues(q, x) + 1
    ensures forall y :: y != x ==> NumRequeues(r, y) == NumRequeues(q, y)
    ensures r.queue == q.queue + (if Admits(q, x) then [x] else [])
    ensures r.dirty == if q.shuttingDown then q.dirty else q.dirty + {x}
    ensures r.processing == q.processing && r.shuttingDown == q.shuttingDown
  {
    Add(q.(failures := q.failures[x := NumRequeues(q, x) + 1]), x)
  }

  /** `Forget`: the failure counter of `x` is cleared. */
  function Forget<T(==,!new)>(q: RateLimitingQueue<T>, x: T): (r: RateLimitingQueue<T>)
    ensures NumRequeues(r, x) == 0
    ensures forall y :: y != x ==> NumRequeues(r, y) == NumRequeues(q, y)
    ensures r.queue == q.queue && r.dirty == q.dirty && r.processing == q.processing && r.shuttingDown == q.shuttingDown
  {
    q.(failures := q.failures - {x})
  }

  datatype GetResult<T> = Item(item: T) | Quit | Wait

  /** `Get`: hands out the head and marks it processing; with nothing ready
      it reports shutdown (`Quit`) or would block (`Wait`). */
  function Get<T(==)>(q: RateLimitingQueue<T>): (r: (RateLimitingQueue<T>, GetResult<T>))
    ensures Valid(q) ==> Valid(r.0)
    ensures r.1.Item? <==> q.queue != []
    ensures r.1.Quit? <==> q.queue == [] && q.shuttingDown
    ensures r.1.Item? ==>
      && r.1.item == q.queue[0]
      && r.0.queue == q.queue[1..]
      && r.0.processing == q.processing + {r.1.item}
      && r.0.dirty == q.dirty - {r.1.item}
    ensures !r.1.Item? ==> r.0 == q
    ensures r.0.shuttingDown == q.shuttingDown && r.0.failures == q.failures
  {
    if q.queue == [] then (q, if q.shuttingDown then Quit else Wait)
    else
      var x := q.queue[0];
      var r := q.(queue := q.queue[1..], processing := q.processing + {x}, dirty := q.dirty - {x});
      assert Valid(q) ==> Valid(r) by {
        if Valid(q) {
          assert q.queue == [x] + r.queue;
          forall y | y in r.queue || y in r.dirty
            ensures y in r.queue <==> y in r.dirty && y !in r.processing
          {
            if y in r.queue {
              var i :| 0 <= i < |r.queue| && r.queue[i] == y;
              assert q.queue[i + 1] == y;
            }
          }
        }
      }
      (r, Item(x))
  }

  /** `Done`: `x` leaves processing; if it was added again meanwhile it is
      queued now. */
  function Done<T(==)>(q: RateLimitingQueue<T>, x: T): (r: RateLimitingQueue<T>)
    ensures Valid(q) && (x in q.processing || x !in q.dirty) ==> Valid(r)
    ensures r.processing == q.processing - {x}
    ensures r.dirty == q.dirty
    ensures r.queue == q.queue + (if x in q.dirty then [x] else [])
    ensures r.failures == q.failures && r.shuttingDown == q.shuttingDown
  {
    var p := q.(processing := q.processing - {x});
    if x in q.dirty then p.(queue := q.queue + [x]) else p
  }

  /** `ShutDown`: later adds are ignored; queued items are still handed out. */
  function ShutDown<T(==)>(q: RateLimitingQueue<T>): (r: RateLimitingQueue<T>)
    ensures Valid(q) ==> Valid(r)
    ensures r.shuttingDown
    ensures r.queue == q.queue && r.dirty == q.dirty && r.processing == q.processing && r.failures == q.failures
  {
    q.(shuttingDown := true)
  }
}
