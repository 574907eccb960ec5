/**
  The blocking FIFO queue of blocking_queue.c as a sequential state machine.

  Each call runs entirely under the queue's mutex, so each is one atomic step
  here. The condition variable is abstracted away: `pop` is a step that is
  enabled only once its wait loop would exit (`CanPop`).
 */
module BlockingQueue {
  import opened CTypes

  /** The queue record: the list of stored values, the separately maintained
      `length` counter and the `terminated` flag (a C int used as a truth value). */
  datatype Queue = Queue(items: seq<U32>, length: int, terminated: bool)

  /** The result of `pop`: its return code, the value written through the
      out-pointer (if any) and the queue afterwards. */
  datatype Popped = Popped(status: int, value: Option<U32>, queue: Queue)

  /** The counter agrees with the number of stored items. */
  predicate Valid(q: Queue) {
    q.length == |q.items|
  }

  /** `blocking_queue_create`: a fresh queue. */
  function Create(): (q: Queue)
    ensures Valid(q)
    ensures q.items == [] && !q.terminated
    ensures Length(q) == 0 && Empty(q)
  {
    Queue([], 0, false)
  }

  /** `blocking_queue_push`: appends at the tail; never blocks, never fails,
      also after `terminate`. */
  function Push(q: Queue, v: U32): (r: Queue)
    ensures r.items == q.items + [v]
    ensures r.length == q.length + 1
    ensures r.terminated == q.terminated
    ensures Valid(q) ==> Valid(r) && !Empty(r)
  {
    Queue(q.items + [v], q.length + 1, q.terminated)
  }

  /** The exit condition of the wait loop in `blocking_queue_pop`: the pop step
      is enabled exactly when this holds. */
  function CanPop(q: Queue): (r: bool)
    ensures Valid(q) ==> (r <==> q.items != [] || q.terminated)
  {
    q.length != 0 || q.terminated
  }

  /** `blocking_queue_pop`, from the moment its wait loop exits: `-1` and no
      change on a terminated queue (even a non-empty one), otherwise `0` with
      the head removed. */
  function Pop(q: Queue): (r: Popped)
    requires Valid(q) && CanPop(q)
    ensures q.terminated ==> r.status == -1 && r.value == None && r.queue == q
    ensures !q.terminated ==>
      && r.status == 0
      && q.items != []
      && r.value == Some(q.items[0])
      && r.queue.items == q.items[1..]
      && r.queue.length == q.length - 1
    ensures r.queue.terminated == q.terminated
    ensures Valid(r.queue)
  {
    if q.terminated then Popped(-1, None, q)
    else Popped(0, Some(q.items[0]), Queue(q.items[1..], q.length - 1, q.terminated))
  }

  /** `blocking_queue_empty`: reads the counter, not the list. */
  function Empty(q: Queue): (r: bool)
    ensures Valid(q) ==> (r <==> q.items == [])
  {
    q.length == 0
  }

  /** `blocking_queue_length`: reads the counter, not the list. */
  function Length(q: Queue): (r: int)
    ensures Valid(q) ==> r == |q.items|
  {
    q.length
  }

  /** `blocking_queue_terminate`: raises the flag and keeps the contents. */
  function Terminate(q: Queue): (r: Queue)
    ensures r.terminated
    ensures r.items == q.items && r.length == q.length
    ensures Valid(q) ==> Valid(r)
  {
    q.(terminated := true)
  }

  /** `terminate` is idempotent. */
  lemma TerminateIdempotent(q: Queue)
    ensures Terminate(Terminate(q)) == Terminate(q)
    ensures q.terminated ==> Terminate(q) == q
  {
  }

  // ---------------------------------------------------------------------------
  // Traces of operations

  /** One call on the queue (`empty` and `length` do not change it). */
  datatype Op = PushOp(v: U32) | PopOp | TerminateOp

  /** The state after one call, or `None` when the call cannot proceed in
      the current state (a pop on an empty, live queue, which waits until
      another thread pushes or terminates). */
  function Step(q: Queue, op: Op): (r: Option<Queue>)
    requires Valid(q)
    ensures r.Some? ==> Valid(r.value) && (q.terminated ==> r.value.terminated)
    ensures r.None? <==> op == PopOp && q.items == [] && !q.terminated
  {
    match op
    case PushOp(v) => Some(Push(q, v))
    case PopOp => if CanPop(q) then Some(Pop(q).queue) else None
    case TerminateOp => Some(Terminate(q))
  }

  /** The state after a sequence of calls, if each can proceed in turn. */
  function Run(q: Queue, ops: seq<Op>): (r: Option<Queue>)
    requires Valid(q)
    ensures r.Some? ==> Valid(r.value)
    decreases |ops|
  {
    if ops == [] then Some(q)
    else
      match Step(q, ops[0])
      case None => None
      case Some(q') => Run(q', ops[1..])
  }

  /** Once terminated, no sequence of calls clears the flag, and every later
      pop fails with `-1` without waiting. */
  lemma {:induction false} TerminatedIsPermanent(q: Queue, ops: seq<Op>)
    requires Valid(q) && q.terminated
    ensures Run(q, ops).Some?
    ensures Run(q, ops).value.terminated
    ensures CanPop(Run(q, ops).value) && Pop(Run(q, ops).value).status == -1
    decreases |ops|
  {
    if ops != [] {
      var q' := Step(q, ops[0]).value;
      TerminatedIsPermanent(q', ops[1..]);
    }
  }

  /** Every state reachable from `create` satisfies the counter invariant, so
      `empty` and `length` there report the list faithfully. */
  lemma ReachableIsValid(ops: seq<Op>)
    ensures Run(Create(), ops).Some? ==> Valid(Run(Create(), ops).value)
    ensures Run(Create(), ops).Some? ==>
      (Empty(Run(Create(), ops).value) <==> Run(Create(), ops).value.items == [])
  {
  }

  // ---------------------------------------------------------------------------
  // FIFO law

  /** Pushes `vs` one after another. */
  function PushAll(q: Queue, vs: seq<U32>): (r: Queue)
    ensures r.items == q.items + vs
    ensures r.length == q.length + |vs|
    ensures r.terminated == q.terminated
    decreases |vs|
  {
    if vs == [] then q else PushAll(Push(q, vs[0]), vs[1..])
  }

  /** Pops `n` times from a live queue holding at least `n` items (so no pop
      waits); yields the popped values in order and the final queue. */
  function Drain(q: Queue, n: nat): (r: (seq<U32>, Queue))
    requires Valid(q) && !q.terminated && n <= |q.items|
    ensures r.0 == q.items[..n]
    ensures r.1.items == q.items[n..]
    ensures Valid(r.1) && !r.1.terminated
    decreases n
  {
    if n == 0 then ([], q)
    else
      var p := Pop(q);
      var rest := Drain(p.queue, n - 1);
      ([p.value.value] + rest.0, rest.1)
  }

  /** Pushing `v1..vn` onto a fresh queue and popping `n` times returns
      `v1..vn` in order and leaves the queue empty. */
  lemma FifoLaw(vs: seq<U32>)
    ensures Valid(PushAll(Create(), vs))
    ensures Drain(PushAll(Create(), vs), |vs|).0 == vs
    ensures Empty(Drain(PushAll(Create(), vs), |vs|).1)
  {
    var q := PushAll(Create(), vs);
    assert q.items == vs;
    var d := Drain(q, |vs|);
    assert vs[..|vs|] == vs;
    assert d.1.items == [];
  }
}
