/**
  The non-blocking FIFO queue of non_blocking_queue.c as a sequential state
  machine: the storage of the blocking queue without the terminated flag.
  Each call runs entirely under the queue's mutex, so each is one atomic step.
 */
module NonBlockingQueue {
  import opened CTypes

  /** The queue record: the list of stored values and the separately
      maintained `length` counter. */
  datatype Queue = Queue(items: seq<U32>, length: int)

  /** The result of `pop`: its return code, the value written through the
      out-pointer (if any) and the queue afterwards. */
  datatype Popped = Popped(status: int, value: Option<U32>, queue: Queue)

  /** The counter agrees with the number of stored items. */
  predicate Valid(q: Queue) {
    q.length == |q.items|
  }

  /** `non_blocking_queue_create`: a fresh queue. */
  function Create(): (q: Queue)
    ensures Valid(q)
    ensures q.items == []
    ensures Empty(q) && Length(q) == 0
  {
    Queue([], 0)
  }

  /** `non_blocking_queue_push`: appends at the tail. */
  function Push(q: Queue, v: U32): (r: Queue)
    ensures r.items == q.items + [v]
    ensures r.length == q.length + 1
    ensures !Empty(r)
    ensures Valid(q) ==> Valid(r)
  {
    Queue(q.items + [v], q.length + 1)
  }

  /** `non_blocking_queue_pop`: total and never waits. It tests the list (not
      the counter): `-1` and no change when the list is empty, otherwise `0`
      with the head removed. */
  function Pop(q: Queue): (r: Popped)
    ensures q.items == [] ==> r.status == -1 && r.value == None && r.queue == q
    ensures q.items != [] ==>
      && r.status == 0
      && r.value == Some(q.items[0])
      && q.items == [q.items[0]] + r.queue.items
      && r.queue.length == q.length - 1
    ensures r.status == 0 <==> !Empty(q)
    ensures Valid(q) ==> Valid(r.queue)
  {
    if q.items == [] then Popped(-1, None, q)
    else Popped(0, Some(q.items[0]), Queue(q.items[1..], q.length - 1))
  }

  /** `non_blocking_queue_empty`: reads the list, not the counter. */
  function Empty(q: Queue): (r: bool)
    ensures Valid(q) ==> (r <==> q.length == 0)
  {
    q.items == []
  }

  /** `non_blocking_queue_length`: reads the counter, not the list. */
  function Length(q: Queue): (r: int)
    ensures Valid(q) ==> r == |q.items|
  {
    q.length
  }

  /** The contract of `Empty` needs the counter invariant: in this state
      (unreachable from `create`) `empty` and `length == 0` disagree. */
  lemma ObserversNeedInvariant()
    ensures Empty(Queue([], 1)) && Length(Queue([], 1)) != 0
  {
  }

  // ---------------------------------------------------------------------------
  // Traces of operations

  /** One call on the queue (`empty` and `length` do not change it). */
  datatype Op = PushOp(v: U32) | PopOp

  /** The state after one call; every call is enabled. */
  function Step(q: Queue, op: Op): (r: Queue)
    ensures Valid(q) ==> Valid(r)
  {
    match op
    case PushOp(v) => Push(q, v)
    case PopOp => Pop(q).queue
  }

  /** The state after a sequence of calls. */
  function Run(q: Queue, ops: seq<Op>): (r: Queue)
    ensures Valid(q) ==> Valid(r)
    decreases |ops|
  {
    if ops == [] then q else Run(Step(q, ops[0]), ops[1..])
  }

  /** Every state reachable from `create` satisfies the counter invariant. */
  lemma ReachableIsValid(ops: seq<Op>)
    ensures Valid(Run(Create(), ops))
    ensures Empty(Run(Create(), ops)) <==> Length(Run(Create(), ops)) == 0
  {
  }

  // ---------------------------------------------------------------------------
  // FIFO law

  /** Pushes `vs` one after another. */
  function PushAll(q: Queue, vs: seq<U32>): (r: Queue)
    ensures r.items == q.items + vs
    ensures r.length == q.length + |vs|
    decreases |vs|
  {
    if vs == [] then q else PushAll(Push(q, vs[0]), vs[1..])
  }

  /** Pops `n` times, collecting the values of the pops that returned `0`.
      Pops past the end return `-1` and change nothing. */
  function PopMany(q: Queue, n: nat): (r: (seq<U32>, Queue))
    ensures n <= |q.items| ==> r.0 == q.items[..n] && r.1.items == q.items[n..]
    ensures n > |q.items| ==> r.0 == q.items && r.1.items == []
    ensures Valid(q) ==> Valid(r.1)
    decreases n
  {
    if n == 0 then ([], q)
    else
      var p := Pop(q);
      var rest := PopMany(p.queue, n - 1);
      match p.value
      case None => rest
      case Some(v) => ([v] + rest.0, rest.1)
  }

  /** The pushed sequence is popped back in the same order, and popping
      further yields nothing. */
  lemma FifoLaw(vs: seq<U32>, extra: nat)
    ensures PopMany(PushAll(Create(), vs), |vs| + extra).0 == vs
    ensures Empty(PopMany(PushAll(Create(), vs), |vs| + extra).1)
  {
    var q := PushAll(Create(), vs);
    assert q.items == vs;
    if extra == 0 {
      assert vs[..|vs|] == vs;
    }
  }
}
