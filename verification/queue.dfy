/** The work queue of pkg/queue/queue.go: a rate-limiting queue plus a
    ceiling on how often an item may be re-queued. Generic in the item type
    so that the older copy in pkg/queue.go can share it. */
module Queue {
  import opened Wrappers
  import opened WorkQueue

  const ErrStopped: string := "Controller has been stoped. "
  const ErrRequeuedTooOften: string := "This object has been requeued for many times, but still fails. "

  /** `Wq`: the embedded library queue and `MaxReQueueTime`. */
  datatype Wq<T(==)> = Wq(q: RateLimitingQueue<T>, maxReQueueTime: int)

  /** `NewWorkQueue(maxReQueueTime)`. */
  function NewWorkQueue<T(==,!new)>(maxReQueueTime: int): (w: Wq<T>)
    ensures Valid(w.q)
    ensures w.q.queue == [] && w.q.dirty == {} && w.q.processing == {} && !w.q.shuttingDown
    ensures w.maxReQueueTime == maxReQueueTime
    ensures forall x :: NumRequeues(w.q, x) == 0
  {
    Wq(New(), maxReQueueTime)
  }

  /** `Push`: a rate-limited add, so the push itself counts against the
      re-queue ceiling. */
  function Push<T(==,!new)>(w: Wq<T>, obj: T): (r: Wq<T>)
    ensures NumRequeues(r.q, obj) == NumRequeues(w.q, obj) + 1
    ensures forall y :: y != obj ==> NumRequeues(r.q, y) == NumRequeues(w.q, y)
    ensures r.q.queue == w.q.queue + (if Admits(w.q, obj) then [obj] else [])
    ensures r.q.dirty == if w.q.shuttingDown then w.q.dirty else w.q.dirty + {obj}
    ensures r.q.processing == w.q.processing && r.q.shuttingDown == w.q.shuttingDown
    ensures r.maxReQueueTime == w.maxReQueueTime
    ensures Valid(w.q) ==> Valid(r.q)
  {
    w.(q := AddRateLimited(w.q, obj))
  }

  /** What `Pop` returns: the item, or the zero item and the stopped error,
      or nothing yet because the underlying `Get` waits. */
  datatype PopResult<T> = Popped(obj: T) | Stopped(obj: T, err: string) | Blocked

  /** `Pop`; `zero` is Go's zero value of the item type. */
  function Pop<T(==)>(w: Wq<T>, zero: T): (r: (Wq<T>, PopResult<T>))
    ensures r.1.Stopped? <==> w.q.queue == [] && w.q.shuttingDown
    ensures r.1.Stopped? ==> r.1 == Stopped(zero, ErrStopped) && r.0 == w
    ensures r.1.Blocked? <==> w.q.queue == [] && !w.q.shuttingDown
    ensures r.1.Blocked? ==> r.0 == w
    ensures r.1.Popped? ==>
      && r.1.obj == w.q.queue[0]
      && r.0.q.queue == w.q.queue[1..]
      && r.0.q.processing == w.q.processing + {r.1.obj}
      && r.0.q.dirty == w.q.dirty - {r.1.obj}
    ensures r.0.q.failures == w.q.failures && r.0.q.shuttingDown == w.q.shuttingDown
    ensures r.0.maxReQueueTime == w.maxReQueueTime
    ensures Valid(w.q) ==> Valid(r.0.q)
  {
    var (q', got) := Get(w.q);
    match got
    case Quit => (w.(q := q'), Stopped(zero, ErrStopped))
    case Wait => (w.(q := q'), Blocked)
    case Item(obj) => (w.(q := q'), Popped(obj))
  }

  /** `Finish`: forget the item's re-queue count, then mark it done. */
  function Finish<T(==,!new)>(w: Wq<T>, obj: T): (r: Wq<T>)
    ensures NumRequeues(r.q, obj) == 0
    ensures forall y :: y != obj ==> NumRequeues(r.q, y) == NumRequeues(w.q, y)
    ensures r.q.processing == w.q.processing - {obj}
    ensures r.q.dirty == w.q.dirty
    ensures r.q.queue == w.q.queue + (if obj in w.q.dirty then [obj] else [])
    ensures r.q.shuttingDown == w.q.shuttingDown && r.maxReQueueTime == w.maxReQueueTime
    ensures Valid(w.q) && (obj in w.q.processing || obj !in w.q.dirty) ==> Valid(r.q)
  {
    w.(q := Done(Forget(w.q, obj), obj))
  }

  /** `ReQueue`, as written: below the ceiling the item is re-added through
      the same rate-limited add as `Push` and is NOT marked done; at the
      ceiling it is dropped exactly as `Finish` would, and an error returned. */
  function ReQueue<T(==,!new)>(w: Wq<T>, obj: T): (r: (Wq<T>, Outcome))
    ensures r.1.Pass? <==> NumRequeues(w.q, obj) < w.maxReQueueTime
    ensures r.1.Pass? ==> r.0 == Push(w, obj)
    ensures r.1.Pass? ==> r.0.q.processing == w.q.processing
    ensures r.1.Fail? ==> r.1.error == ErrRequeuedTooOften && r.0 == Finish(w, obj)
    ensures r.1.Fail? ==> NumRequeues(r.0.q, obj) == 0 && obj !in r.0.q.processing
    ensures w.maxReQueueTime <= 0 ==> r.1.Fail?
  {
    if NumRequeues(w.q, obj) < w.maxReQueueTime then
      (w.(q := AddRateLimited(w.q, obj)), Pass)
    else
      (w.(q := Done(Forget(w.q, obj), obj)), Fail(ErrRequeuedTooOften))
  }

  /** `Close`: shuts the library queue down; nothing else changes. */
  function Close<T(==)>(w: Wq<T>): (r: Wq<T>)
    ensures r.q.shuttingDown
    ensures r.q.queue == w.q.queue && r.q.dirty == w.q.dirty && r.q.processing == w.q.processing
    ensures r.q.failures == w.q.failures && r.maxReQueueTime == w.maxReQueueTime
  {
    w.(q := ShutDown(w.q))
  }

  /** `SetReMaxReQueueTime`: only the ceiling changes. */
  function SetReMaxReQueueTime<T(==)>(w: Wq<T>, maxReQueueTime: int): (r: Wq<T>)
    ensures r.q == w.q
    ensures r.maxReQueueTime == maxReQueueTime
  {
    w.(maxReQueueTime := maxReQueueTime)
  }

  /** `ReQueue` called `n` times in a row on the same item. */
  function ReQueueTimes<T(==,!new)>(w: Wq<T>, obj: T, n: nat): (Wq<T>, seq<Outcome>)
    decreases n
  {
    if n == 0 then (w, [])
    else
      var (w1, e) := ReQueue(w, obj);
      var (w2, es) := ReQueueTimes(w1, obj, n - 1);
      (w2, [e] + es)
  }

  /** With `k` re-queues left under the ceiling, `k` calls succeed and the
      next one reports the budget exhausted. */
  lemma {:induction false} ReQueueBudget<T(!new)>(w: Wq<T>, obj: T, k: nat)
    requires NumRequeues(w.q, obj) + k == w.maxReQueueTime
    ensures ReQueueTimes(w, obj, k + 1).1 == seq(k, _ => Pass) + [Fail(ErrRequeuedTooOften)]
    decreases k
  {
    if k > 0 {
      var (w1, e) := ReQueue(w, obj);
      ReQueueBudget(w1, obj, k - 1);
      assert seq(k, _ => Pass) == [Pass] + seq(k - 1, _ => Pass);
    }
  }

  /** Since `Push` counts, an item pushed into a queue with ceiling `n`
      survives `n - 1` re-queues and the `n`-th fails. */
  lemma PushedItemBudget<T(!new)>(n: nat, obj: T)
    requires n >= 1
    ensures ReQueueTimes(Push(NewWorkQueue(n), obj), obj, n).1
      == seq(n - 1, _ => Pass) + [Fail(ErrRequeuedTooOften)]
  {
    ReQueueBudget(Push(NewWorkQueue(n), obj), obj, n - 1);
  }

  /** `x` is being processed and has been added again: the library holds
      it back until `x` is marked done. */
  predicate Stranded<T(==)>(q: RateLimitingQueue<T>, x: T) {
    x in q.processing && x in q.dirty
  }

  /** The success branch of `ReQueue` on an item just handed out by `Pop`
      reports success but leaves the item stranded: not ready for `Get`. */
  lemma ReQueueStrands<T(!new)>(w: Wq<T>, x: T)
    requires Valid(w.q) && x in w.q.processing && !w.q.shuttingDown
    requires NumRequeues(w.q, x) < w.maxReQueueTime
    ensures ReQueue(w, x).1 == Pass
    ensures Stranded(ReQueue(w, x).0.q, x) && x !in ReQueue(w, x).0.q.queue
  {
  }

  /** A stranded item stays stranded through every operation except
      `Finish` or `ReQueue` of that very item, and `Pop` never returns it. */
  lemma StrandedNeverPopped<T(!new)>(w: Wq<T>, x: T, y: T, zero: T, n: int)
    requires Valid(w.q) && Stranded(w.q, x)
    ensures Pop(w, zero).1.Popped? ==> Pop(w, zero).1.obj != x
    ensures Stranded(Pop(w, zero).0.q, x)
    ensures Stranded(Push(w, y).q, x)
    ensures Stranded(Close(w).q, x)
    ensures Stranded(SetReMaxReQueueTime(w, n).q, x)
    ensures y != x ==> Stranded(Finish(w, y).q, x) && Stranded(ReQueue(w, y).0.q, x)
  {
    if w.q.queue != [] {
      assert w.q.queue[0] in w.q.queue;
    }
  }

  /** The corrected re-queue: the success branch also marks the item done,
      as `Finish` and the exhaustion branch do. */
  function ReQueueDone<T(==,!new)>(w: Wq<T>, obj: T): (r: (Wq<T>, Outcome))
    ensures r.1.Pass? <==> NumRequeues(w.q, obj) < w.maxReQueueTime
    ensures r.1.Pass? ==> NumRequeues(r.0.q, obj) == NumRequeues(w.q, obj) + 1 && obj !in r.0.q.processing
    ensures r.1.Pass? && obj in w.q.processing && !w.q.shuttingDown ==> r.0.q.queue == w.q.queue + [obj]
    ensures r.1.Fail? ==> r == ReQueue(w, obj)
    ensures Valid(w.q) && obj in w.q.processing ==> Valid(r.0.q)
  {
    if NumRequeues(w.q, obj) < w.maxReQueueTime then
      (w.(q := Done(AddRateLimited(w.q, obj), obj)), Pass)
    else
      ReQueue(w, obj)
  }

  /** One consumer round with a handler that always fails: pop an item and
      re-queue it, `n` times or until nothing is handed out. */
  function FailRounds<T(==,!new)>(w: Wq<T>, zero: T, n: nat, withDone: bool): (Wq<T>, seq<Outcome>)
    decreases n
  {
    if n == 0 then (w, [])
    else
      var (w1, p) := Pop(w, zero);
      if p.Popped? then
        var (w2, e) := if withDone then ReQueueDone(w1, p.obj) else ReQueue(w1, p.obj);
        var (w3, es) := FailRounds(w2, zero, n - 1, withDone);
        (w3, [e] + es)
      else (w1, [])
  }

  /** Unfolds one round of the corrected consumer loop once an item is
      handed out. */
  lemma FailRoundsStep<T(!new)>(w: Wq<T>, zero: T, n: nat)
    requires n > 0 && Pop(w, zero).1.Popped?
    ensures
      var r := ReQueueDone(Pop(w, zero).0, Pop(w, zero).1.obj);
      FailRounds(w, zero, n, true) == (FailRounds(r.0, zero, n - 1, true).0, [r.1] + FailRounds(r.0, zero, n - 1, true).1)
  {
  }

  /** `x` is the only ready item, not being processed, in an open queue:
      the single-item setting the retry lemmas below are stated for. */
  predicate ReadyAlone<T(==)>(w: Wq<T>, x: T) {
    Valid(w.q) && w.q.queue == [x] && x !in w.q.processing && !w.q.shuttingDown
  }

  /** One round of the corrected consumer on the only ready item: it is
      handed out, and then either queued again with its count raised, or
      dropped with its count cleared once the ceiling is reached. */
  lemma FailRoundDone<T(!new)>(w: Wq<T>, x: T, zero: T)
    requires ReadyAlone(w, x)
    ensures Pop(w, zero).1 == Popped(x)
    ensures
      var r := ReQueueDone(Pop(w, zero).0, x);
      && r.0.maxReQueueTime == w.maxReQueueTime
      && (NumRequeues(w.q, x) < w.maxReQueueTime ==>
            r.1 == Pass && ReadyAlone(r.0, x) && NumRequeues(r.0.q, x) == NumRequeues(w.q, x) + 1)
      && (NumRequeues(w.q, x) >= w.maxReQueueTime ==>
            r.1 == Fail(ErrRequeuedTooOften) && r.0.q.queue == [] && NumRequeues(r.0.q, x) == 0)
  {
    var (w1, p) := Pop(w, zero);
    assert p == Popped(x);
    assert w1.q.queue == [] && x in w1.q.processing && x !in w1.q.dirty;
  }

  /** With the corrected re-queue, a permanently failing item with `k`
      re-queues left is handed out `k + 1` times, re-queued `k` times, then
      dropped: the queue is left empty and its count cleared. Stated for a
      queue holding only that item (`ReadyAlone`); other ready items would
      interleave with its rounds. */
  lemma {:induction false} BoundedRetries<T(!new)>(w: Wq<T>, x: T, zero: T, k: nat)
    requires ReadyAlone(w, x)
    requires NumRequeues(w.q, x) + k == w.maxReQueueTime
    ensures FailRounds(w, zero, k + 1, true).1 == seq(k, _ => Pass) + [Fail(ErrRequeuedTooOften)]
    ensures FailRounds(w, zero, k + 1, true).0.q.queue == []
    ensures NumRequeues(FailRounds(w, zero, k + 1, true).0.q, x) == 0
    decreases k
  {
    FailRoundDone(w, x, zero);
    var r := ReQueueDone(Pop(w, zero).0, x);
    FailRoundsStep(w, zero, k + 1);
    var rest := FailRounds(r.0, zero, k, true);
    assert FailRounds(w, zero, k + 1, true) == (rest.0, [r.1] + rest.1);
    if k > 0 {
      BoundedRetries(r.0, x, zero, k - 1);
      assert seq(k, _ => Pass) == [Pass] + seq(k - 1, _ => Pass);
    } else {
      assert rest == (r.0, []);
    }
  }

  /** With the re-queue as written, the same failing item with budget left
      is handed out once, re-queued once, and then the consumer waits
      forever: the next `Pop` blocks. */
  lemma ReQueueStallsRetries<T(!new)>(w: Wq<T>, x: T, zero: T)
    requires ReadyAlone(w, x)
    requires NumRequeues(w.q, x) < w.maxReQueueTime
    ensures FailRounds(w, zero, 2, false).1 == [Pass]
    ensures Pop(FailRounds(w, zero, 2, false).0, zero).1 == Blocked
  {
    var (w1, p) := Pop(w, zero);
    assert p == Popped(x);
    var (w2, e) := ReQueue(w1, x);
    assert w2.q.queue == [];
  }

  /** A concrete run of the same: push 7 into a queue allowing 3 re-queues,
      pop it, re-queue it (reported as success), and pop again. */
  lemma RequeuedItemNotRedelivered()
    ensures
      var w1 := Push(NewWorkQueue<int>(3), 7);
      var (w2, p) := Pop(w1, 0);
      var (w3, e) := ReQueue(w2, 7);
      p == Popped(7) && e == Pass && Pop(w3, 0).1 == Blocked
  {
  }
}
