# Process simulator core: queues, process table and scheduler

A Dafny model of the core of a user-space simulator of a preemptive
multitasking kernel (COMP2007OperSim). The core is three sequential state
machines that sit under the pthread plumbing:

- `BlockingQueue` (blocking_queue.dfy): the mutex- and condition-variable-
  guarded FIFO of unsigned values. It has a separately kept `length` counter
  and a `terminated` flag. `pop` is a step that is enabled only once its wait
  loop would exit (`length != 0 || terminated`).
- `NonBlockingQueue` (non_blocking_queue.dfy): the same storage without the
  flag. Its `pop` returns `-1` at once on an empty list.
- `Simulator` (simulator.dfy): a fixed-size process table of PCBs (pid,
  one of five states, an opaque code handle, a PC) plus one task queue of
  pids. It models `simulator_start`'s table set-up, `create_process`, `kill`,
  `wait` (as the test "wait can return"), `event`, and the worker loop
  split at its lock boundaries into `Dispatch` and `Complete`.
- `CTypes` (ctypes.dfy): C `unsigned int` as the subset type `U32`, `INT_MAX`,
  and an `Option` for out-parameters that a call may leave unwritten.

Every critical section is one atomic step, written as a pure function on an
immutable datatype. Each module also defines `Step`/`Run` over sequences of
calls. Invariant-preservation lemmas then show what holds in every reachable
state:

- for the queues, the counter equals the list size, so `empty` and `length`
  agree;
- for the simulator, pid == slot index + 1, queued pids name ready (or
  killed) slots, no pid is queued or held by a worker twice, and every ready
  process is queued.

The pids that workers hold between `Dispatch` and `Complete` (the local
`task_id` of `simulator_routine`) are part of the state as the multiset
`inFlight`. `Complete` is only possible for a held pid.

The model follows the code as written. Notable behaviours of that code:

- There is a single task queue and no blocked queue.
- `simulator_event` is empty.
- `kill` does not remove the pid from the queue. `KillThenDispatchRevives`
  proves the consequence: a process killed while queued is dispatched again and
  marked running, so `wait` on it cannot return until the process terminates
  or is killed again. Termination is therefore not absorbing.
- No operation ever sets the `blocked` state. A reason other than "terminated"
  or "timeslice ended" leaves the process `running` and out of every queue
  (`BlockedReasonStrandsProcess`).
- The idle policy of the worker loop is "poll and retry" (an empty-queue
  `Dispatch` changes nothing).
- Killing a pid whose slot was never allocated marks that slot terminated.
  After that, `create` never reuses the slot.

## Model

| member | source | states |
|---|---|---|
| BlockingQueue.Create | blocking_queue.c:17-23 | a new queue is empty, not terminated, `length` 0, `empty` true, and satisfies the counter invariant |
| BlockingQueue.Push | blocking_queue.c:31-37 | the value goes to the tail and the earlier items keep their order; `length` rises by 1; the terminated flag is unchanged (so push works after terminate); the counter invariant is kept and the queue is no longer empty |
| BlockingQueue.Pop | blocking_queue.c:39-56 | once enabled: on a terminated queue it returns -1, writes no value and leaves the queue as it was, even with items left; otherwise it returns 0 with the head, only the head is removed, `length` drops by 1; the flag and the invariant are kept |
| BlockingQueue.Terminate | blocking_queue.c:10-15 | the flag is set and the items and counter are kept |
| BlockingQueue.Empty | blocking_queue.c:58-63 | `empty` reads the `length` counter, not the list; on a queue satisfying the counter invariant it is true exactly when no items are stored |
| BlockingQueue.Length | blocking_queue.c:65-70 | `length` reads the counter, not the list; under the counter invariant it is the number of stored items |
| BlockingQueue.CanPop | blocking_queue.c:42-44 | the wait-loop exit test reads the counter and the flag (`length != 0 || terminated`); under the counter invariant it holds exactly when items are stored or the queue is terminated, so a pop cannot proceed exactly on an empty, live queue, until a push or terminate |
| BlockingQueue.TerminateIdempotent | blocking_queue.c:10-15 | terminating twice is the same as once, and terminating a terminated queue changes nothing |
| BlockingQueue.Step | blocking_queue.c:10-56 | a call cannot proceed only when it is a pop on an empty, live queue (until a push or terminate); every possible call keeps the counter invariant and never clears the terminated flag |
| BlockingQueue.Run | blocking_queue.c:10-70 | any sequence of calls each of which can proceed in turn keeps the counter invariant |
| BlockingQueue.TerminatedIsPermanent | blocking_queue.c:46-49 | after terminate, every sequence of calls can proceed without waiting, the flag stays set, and every later pop returns -1 |
| BlockingQueue.ReachableIsValid | blocking_queue.c:58-70 | in every state reachable from create, the counter equals the item count, so `empty` reports the list faithfully |
| BlockingQueue.PushAll | blocking_queue.c:31-37 | pushing a sequence appends it at the tail in order, raises `length` by its size and keeps the flag |
| BlockingQueue.Drain | blocking_queue.c:39-56 | n pops from a live queue with at least n items return the first n items in order and leave exactly the rest |
| BlockingQueue.FifoLaw | blocking_queue.c:31-56 | pushing v1..vn onto a new queue and popping n times yields v1..vn in order and leaves the queue empty |
| NonBlockingQueue.Create | non_blocking_queue.c:10-14 | a new queue is empty with `length` 0 and satisfies the counter invariant |
| NonBlockingQueue.Push | non_blocking_queue.c:21-26 | the value goes to the tail and the earlier items keep their order; `length` rises by 1; the invariant is kept |
| NonBlockingQueue.Pop | non_blocking_queue.c:28-39 | total: on an empty list it returns -1 and changes nothing, otherwise 0 with the head, only the head is removed, and `length` drops by 1; it succeeds exactly when the queue is not empty |
| NonBlockingQueue.Empty | non_blocking_queue.c:41-46 | `empty` reads the list, not the counter; under the counter invariant it is true exactly when the counter is 0 |
| NonBlockingQueue.Length | non_blocking_queue.c:48-53 | `length` reads the counter, not the list; under the counter invariant it is the number of stored items |
| NonBlockingQueue.ObserversNeedInvariant | non_blocking_queue.c:41-53 | a witness that the contract of `Empty` needs the counter invariant: in `Queue([], 1)`, a state unreachable from create, `empty` and `length == 0` disagree |
| NonBlockingQueue.Step | non_blocking_queue.c:21-39 | every call is possible and keeps the counter invariant |
| NonBlockingQueue.Run | non_blocking_queue.c:21-39 | any sequence of calls keeps the counter invariant |
| NonBlockingQueue.ReachableIsValid | non_blocking_queue.c:41-53 | in every state reachable from create, the counter matches the list and `empty` agrees with `length == 0` |
| NonBlockingQueue.PushAll | non_blocking_queue.c:21-26 | pushing a sequence appends it at the tail in order and raises `length` by its size |
| NonBlockingQueue.PopMany | non_blocking_queue.c:28-39 | n pops return the first n items in order (all items if there are fewer) and leave exactly the rest |
| NonBlockingQueue.FifoLaw | non_blocking_queue.c:21-39 | the pushed sequence is popped back in the same order, and further pops yield nothing and leave the queue empty |
| Simulator.Start | simulator.c:40-44 | a table of `max` slots, all unallocated, with an empty queue and no held pids; nothing is allocated and the invariant holds |
| Simulator.FirstUnallocated | simulator.c:114-115 | the scan finds the lowest-index unallocated slot at or after its start, or reports that there is none |
| Simulator.CreateProcess | simulator.c:111-131 | returns 0 and changes nothing exactly when no slot is unallocated; otherwise it takes the lowest unallocated slot, makes it ready with the given code and PC 0, appends its pid at the tail, changes no other slot, adds exactly that slot to the allocated set, and returns that pid |
| Simulator.Kill | simulator.c:161-166 | the target becomes terminated with its other fields kept; the queue, held pids and every other slot are unchanged; no allocation is undone |
| Simulator.CanWaitReturn | simulator.c:134-142 | the wait loop reads only the target slot's state and returns when it is terminated, which holds exactly when a kill of that pid would change nothing |
| Simulator.KillLetsWaitReturn | simulator.c:137-139 | right after kill, wait on that pid can return |
| Simulator.Event | simulator.c:168-169 | the table, queue and held pids are all unchanged |
| Simulator.Dispatch | simulator.c:75-87 | on an empty queue nothing changes and no pid is taken; otherwise the head pid is taken, removed from the queue, held by the worker, and its slot marked running whatever its prior state, with every other slot unchanged |
| Simulator.Complete | simulator.c:89-102 | the held pid is released and its PC stored; "terminated" marks it terminated; "timeslice ended" marks it ready and appends it at the tail; any other reason keeps its state and does not re-queue it; no other slot changes |
| Simulator.CreatePreservesInv | simulator.c:114-125 | create keeps the reachable-state invariant: the new pid was neither queued nor held |
| Simulator.KillPreservesInv | simulator.c:161-166 | kill keeps the reachable-state invariant |
| Simulator.DispatchPreservesInv | simulator.c:83-85 | dispatch keeps the reachable-state invariant |
| Simulator.CompletePreservesInv | simulator.c:92-100 | completion keeps the reachable-state invariant, including no duplicate pid in the queue |
| Simulator.Step | simulator.c:74-169 | each atomic step keeps the invariant and the table size and never shrinks the allocated set |
| Simulator.Run | simulator.c:74-169 | any sequence of steps keeps the invariant and the table size, and the allocated set only grows |
| Simulator.ReachableKeepsIdentity | simulator.c:40-43 | in every state reachable from start, slot i carries pid i+1, no slot or queue entry carries pid 0, and the table size is fixed |
| Simulator.PidsIdentifySlots | simulator.c:117 | pids and slots are in bijection and 0 names no slot |
| Simulator.KillThenDispatchRevives | simulator.c:83-85 | a process killed while at the head of the queue is dispatched again and marked running, so `wait` on it cannot return until the process terminates or is killed again; termination is therefore not absorbing |
| Simulator.TimesliceIsRoundRobin | simulator.c:97-99 | a process whose timeslice ended is appended behind every process already queued, and it was not queued before |
| Simulator.BlockedReasonStrandsProcess | simulator.c:94-100 | after any other reason, a running process stays running and is neither queued nor held by a worker |
| Simulator.FullStaysFull | simulator.c:129-130 | once every slot is allocated, create returns 0 after any sequence of steps |
| Simulator.CreateAll | simulator.c:111-131 | successive creates return one pid per call and keep the table size |
| Simulator.CreatesFillInOrder | simulator.c:114-125 | with slots 0..k-1 allocated and the rest free, successive creates return pids k+1, k+2, ... in order, queue them in that order and fill each slot with its code at PC 0 |
| Simulator.CreateAllKeepsAllocated | simulator.c:115 | creates never change a slot that is already allocated |
| Simulator.FreshTableAllocatesInOrder | simulator.c:114-125 | on a freshly started table, the first `max` creates return pids 1, 2, ... in order and the queue holds them in that order |

## Left out

- Mutexes, condition variables, signal and broadcast, thread creation and
  joining in `simulator_start`/`simulator_stop`, and the `usleep` idle poll are
  concurrency plumbing. Each critical section is one atomic step, and a waiting
  call is a step that is not yet enabled. Nothing is claimed about thread
  safety.
- The unlocked PC write between the evaluator call and the second lock, and
  the kill-versus-re-file race, are sequentialised. `Complete` stores the PC
  and re-files in one step.
- The number of worker threads is not modelled. Any number of dispatched pids
  may be held at once, which over-approximates a fixed pool.
- The evaluator (`evaluator_evaluate`, `EvaluatorCodeT`) is not part of this
  model. Code is a type parameter, and the evaluator's `(PC, reason)` result
  is an input to `Complete`. evaluator.h is not part of this model either:
  its reason values beyond the two the scheduler tests are represented by
  `ReasonBlocked`.
- Simulator.Start: always succeeds. When malloc fails for the table, the
  queue or the thread array, `simulator_start` prints an error and ends the
  program with `exit(EXIT_FAILURE)` (simulator.c:35-38, simulator.c:49-53).
  The model assumes the table and queue were allocated.
- `simulator_start` leaves each slot's code and PC uninitialised.
  `Simulator.Start` fills them with a caller-given code and PC 0. Nothing
  reads a slot's code or PC unless `create` has set them (a slot killed while
  unallocated keeps the filler values, unread).
- list.h is not part of this model. Its list is a Dafny `seq`.
- `kill` and `wait` on a pid outside 1..max index out of bounds in the
  source. The model states `1 <= pid <= max` as a precondition.
- `wait` is the exit test `CanWaitReturn`: blocking itself is not modelled.
- `simulator_stop` clears `simulator_active`, so each worker leaves its loop
  at the next test (simulator.c:74, simulator.c:146). It then joins the
  workers and frees the table and queue. The model has no stopped state:
  `Dispatch` stays enabled in every state, which over-approximates a stopped
  pool.
- The `*_destroy` functions only free resources.
- environment.c, event_source.c and logger.c are the workload driver, timer
  thread and stdout logger. They have no state logic of their own.
- The C `int` counters `length` of both queues are unbounded integers.
  Overflow past `INT_MAX` pushes is not modelled. The C `int` truth values
  returned by `empty` and stored in `terminated` are Dafny `bool`s.
- Round-robin fairness between two repeatedly expiring processes, and the
  end-to-end scenario with two workers, are not proved. They need a model of
  the worker pool's interleaving. `TimesliceIsRoundRobin` proves the
  single-step part.
