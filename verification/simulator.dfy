/**
  The process table and round-robin scheduler of simulator.c as a sequential
  state machine.

  Every critical section under `process_mutex` is one atomic step. The worker
  loop of `simulator_routine` is split at its lock boundaries into `Dispatch`
  (take the head of the task queue and mark it running) and `Complete` (store
  the evaluator's new PC and re-file the process by the evaluator's reason).
  The evaluator itself is not modelled: its result is an input to `Complete`.
  The `task_id` each worker holds between the two halves is kept in
  `inFlight`.
 */
module Simulator {
  import opened CTypes

  /** `ProcessStateT`. `Blocked` exists but no operation sets it. */
  datatype ProcessState = Unallocated | Ready | Running | Blocked | Terminated

  /** `ProcessControlBlock`; `Code` is the evaluator's opaque program handle. */
  datatype Pcb<Code> = Pcb(pid: U32, state: ProcessState, code: Code, pc: U32)

  /** Why the evaluator returned. The source tests only the first two; every
      other reason behaves like `ReasonBlocked`. */
  datatype Reason = ReasonTerminated | ReasonTimesliceEnded | ReasonBlocked

  /** The shared scheduler state: the process table, the task queue of pids,
      and the pids currently held by workers between dispatch and completion. */
  datatype Sim<Code> = Sim(table: seq<Pcb<Code>>, queue: seq<U32>, inFlight: multiset<U32>)

  /** A pid names a slot of the table (pids are slot index + 1). */
  predicate ValidPid<Code>(s: Sim<Code>, pid: int) {
    1 <= pid <= |s.table|
  }

  /** The slot a pid names. */
  function Slot<Code>(s: Sim<Code>, pid: int): Pcb<Code>
    requires ValidPid(s, pid)
  {
    s.table[pid - 1]
  }

  // ---------------------------------------------------------------------------
  // The invariant of reachable states

  /** Slot `i` carries pid `i + 1`, and every pid fits in a C `int`. */
  predicate SlotIds<Code>(s: Sim<Code>) {
    && |s.table| <= IntMax
    && forall i :: 0 <= i < |s.table| ==> s.table[i].pid == i + 1
  }

  /** Every queued pid names a slot that is ready or was killed while queued. */
  predicate QueueSound<Code>(s: Sim<Code>) {
    forall k :: 0 <= k < |s.queue| ==>
      ValidPid(s, s.queue[k]) && Slot(s, s.queue[k]).state in {Ready, Terminated}
  }

  /** Every pid held by a worker names a slot that is running or was killed
      while running. */
  predicate InFlightSound<Code>(s: Sim<Code>) {
    forall p :: p in s.inFlight ==>
      ValidPid(s, p) && Slot(s, p).state in {Running, Terminated}
  }

  /** No pid is queued twice, held twice, or both queued and held. */
  predicate NoDuplicates<Code>(s: Sim<Code>) {
    && (forall i, j :: 0 <= i < j < |s.queue| ==> s.queue[i] != s.queue[j])
    && (forall p :: p in s.inFlight ==> s.inFlight[p] == 1)
    && (forall p :: p in s.inFlight ==> p !in s.queue)
  }

  /** Every ready process is waiting in the task queue. */
  predicate ReadyIsQueued<Code>(s: Sim<Code>) {
    forall i :: 0 <= i < |s.table| && s.table[i].state == Ready ==> i + 1 in s.queue
  }

  predicate Inv<Code>(s: Sim<Code>) {
    && SlotIds(s)
    && QueueSound(s)
    && InFlightSound(s)
    && NoDuplicates(s)
    && ReadyIsQueued(s)
  }

  /** The indices of the slots that have been allocated. */
  function Allocated<Code>(s: Sim<Code>): set<nat> {
    set i: nat | i < |s.table| && s.table[i].state != Unallocated
  }

  // ---------------------------------------------------------------------------
  // Operations

  /** The table initialisation of `simulator_start`. The source leaves each
      slot's code and PC uninitialised; here they hold `filler` and 0. */
  function Start<Code>(max: nat, filler: Code): (s: Sim<Code>)
    requires max <= IntMax
    ensures |s.table| == max
    ensures forall i :: 0 <= i < max ==> s.table[i].state == Unallocated
    ensures s.queue == [] && s.inFlight == multiset{}
    ensures Allocated(s) == {}
    ensures Inv(s)
  {
    Sim(seq(max, i requires 0 <= i < max => Pcb(i + 1, Unallocated, filler, 0)), [], multiset{})
  }

  /** The slot scan of `simulator_create_process`: the lowest index at or
      after `from` whose slot is unallocated. */
  function FirstUnallocated<Code>(t: seq<Pcb<Code>>, from: nat): (r: Option<nat>)
    requires from <= |t|
    ensures r.Some? ==>
      && from <= r.value < |t|
      && t[r.value].state == Unallocated
      && forall j :: from <= j < r.value ==> t[j].state != Unallocated
    ensures r.None? ==> forall j :: from <= j < |t| ==> t[j].state != Unallocated
    decreases |t| - from
  {
    if from == |t| then None
    else if t[from].state == Unallocated then Some(from)
    else FirstUnallocated(t, from + 1)
  }

  /** `simulator_create_process`: allocates the lowest unallocated slot as a
      ready process at PC 0, queues its pid at the tail and returns the pid;
      returns 0 and changes nothing when every slot is allocated. */
  function CreateProcess<Code>(s: Sim<Code>, code: Code): (r: (Sim<Code>, U32))
    requires |s.table| <= IntMax
    ensures r.1 == 0 <==> forall i :: 0 <= i < |s.table| ==> s.table[i].state != Unallocated
    ensures r.1 == 0 ==> r.0 == s
    ensures r.1 != 0 ==>
      && ValidPid(s, r.1)
      && Slot(s, r.1).state == Unallocated
      && (forall i :: 0 <= i < r.1 - 1 ==> s.table[i].state != Unallocated)
      && r.0.table == s.table[r.1 - 1 := Pcb(r.1, Ready, code, 0)]
      && r.0.queue == s.queue + [r.1]
      && r.0.inFlight == s.inFlight
    ensures Allocated(r.0) == Allocated(s) + (if r.1 == 0 then {} else {r.1 as nat - 1})
  {
    match FirstUnallocated(s.table, 0)
    case None => (s, 0)
    case Some(i) =>
      var pid: U32 := i + 1;
      var s' := Sim(s.table[i := Pcb(pid, Ready, code, 0)], s.queue + [pid], s.inFlight);
      assert Allocated(s') == Allocated(s) + {i};
      (s', pid)
  }

  /** `simulator_kill`: marks the target terminated. It neither dequeues the
      pid nor touches any other slot. */
  function Kill<Code>(s: Sim<Code>, pid: U32): (r: Sim<Code>)
    requires ValidPid(s, pid)
    ensures |r.table| == |s.table|
    ensures Slot(r, pid) == Slot(s, pid).(state := Terminated)
    ensures forall i :: 0 <= i < |s.table| && i != pid - 1 ==> r.table[i] == s.table[i]
    ensures r.queue == s.queue && r.inFlight == s.inFlight
    ensures Allocated(s) <= Allocated(r)
  {
    s.(table := s.table[pid - 1 := Slot(s, pid).(state := Terminated)])
  }

  /** The exit test of the wait loop in `simulator_wait`: the call returns
      exactly when this holds of the state it observes. It reads only the
      target's state: wait can return exactly when a kill of that pid would
      change nothing. */
  function CanWaitReturn<Code>(s: Sim<Code>, pid: U32): (r: bool)
    requires ValidPid(s, pid)
    ensures r <==> Kill(s, pid) == s
  {
    Slot(s, pid).state == Terminated
  }

  /** `simulator_event`: its body is empty. */
  function Event<Code>(s: Sim<Code>): (r: Sim<Code>)
    ensures r.table == s.table && r.queue == s.queue && r.inFlight == s.inFlight
  {
    s
  }

  /** The first critical section of the worker loop: on an empty queue the
      worker releases the lock and idles; otherwise it takes the head pid and
      marks that slot running, whatever its state was. */
  function Dispatch<Code>(s: Sim<Code>): (r: (Sim<Code>, Option<U32>))
    requires s.queue != [] ==> 1 <= s.queue[0] <= |s.table|
    ensures s.queue == [] ==> r.0 == s && r.1 == None
    ensures s.queue != [] ==>
      && r.1 == Some(s.queue[0])
      && r.0.queue == s.queue[1..]
      && r.0.table == s.table[s.queue[0] - 1 := Slot(s, s.queue[0]).(state := Running)]
      && r.0.inFlight == s.inFlight + multiset{s.queue[0]}
  {
    if s.queue == [] then (s, None)
    else
      var pid := s.queue[0];
      (Sim(s.table[pid - 1 := Slot(s, pid).(state := Running)], s.queue[1..], s.inFlight + multiset{pid}), Some(pid))
  }

  /** The second critical section of the worker loop, after the evaluator
      returned `pc` and `reason` for the held `pid`: the PC is stored; then a
      terminated process is marked terminated, a process whose timeslice ended
      is marked ready and re-queued at the tail, and for any other reason the
      slot keeps its state and the pid is not re-queued. */
  function Complete<Code>(s: Sim<Code>, pid: U32, pc: U32, reason: Reason): (r: Sim<Code>)
    requires pid in s.inFlight && ValidPid(s, pid)
    ensures |r.table| == |s.table|
    ensures forall i :: 0 <= i < |s.table| && i != pid - 1 ==> r.table[i] == s.table[i]
    ensures Slot(r, pid).pc == pc
    ensures Slot(r, pid).pid == Slot(s, pid).pid && Slot(r, pid).code == Slot(s, pid).code
    ensures reason == ReasonTerminated ==> Slot(r, pid).state == Terminated && r.queue == s.queue
    ensures reason == ReasonTimesliceEnded ==> Slot(r, pid).state == Ready && r.queue == s.queue + [pid]
    ensures reason == ReasonBlocked ==> Slot(r, pid).state == Slot(s, pid).state && r.queue == s.queue
    ensures r.inFlight == s.inFlight - multiset{pid}
  {
    var p := Slot(s, pid).(pc := pc);
    var rest := s.inFlight - multiset{pid};
    match reason
    case ReasonTerminated => Sim(s.table[pid - 1 := p.(state := Terminated)], s.queue, rest)
    case ReasonTimesliceEnded => Sim(s.table[pid - 1 := p.(state := Ready)], s.queue + [pid], rest)
    case ReasonBlocked => Sim(s.table[pid - 1 := p], s.queue, rest)
  }

  // ---------------------------------------------------------------------------
  // Each operation preserves the invariant

  lemma CreatePreservesInv<Code>(s: Sim<Code>, code: Code)
    requires Inv(s)
    ensures Inv(CreateProcess(s, code).0)
  {
    var (s', pid) := CreateProcess(s, code);
    if pid != 0 {
      // The new pid was neither queued nor held: its slot was unallocated.
      assert pid !in s.queue;
      assert pid !in s.inFlight;
      forall i | 0 <= i < |s'.table| && s'.table[i].state == Ready
        ensures i + 1 in s'.queue
      {
        if i != pid - 1 {
          assert s.table[i].state == Ready;
          assert i + 1 in s.queue;
        }
      }
    }
  }

  lemma KillPreservesInv<Code>(s: Sim<Code>, pid: U32)
    requires Inv(s) && ValidPid(s, pid)
    ensures Inv(Kill(s, pid))
  {
  }

  lemma DispatchPreservesInv<Code>(s: Sim<Code>)
    requires Inv(s)
    ensures Inv(Dispatch(s).0)
  {
    if s.queue != [] {
      var s' := Dispatch(s).0;
      var pid := s.queue[0];
      assert s'.queue == s.queue[1..];
      assert SlotIds(s');
      assert QueueSound(s');
      assert InFlightSound(s');
      // The head leaves the queue for the workers, so it is in neither twice.
      assert pid !in s'.queue;
      forall p | p in s'.inFlight
        ensures p !in s'.queue
      {
        if p != pid {
          assert p in s.inFlight;
        }
      }
      assert NoDuplicates(s');
      forall i | 0 <= i < |s'.table| && s'.table[i].state == Ready
        ensures i + 1 in s'.queue
      {
        assert s.table[i].state == Ready && i != pid - 1;
        var k :| 0 <= k < |s.queue| && s.queue[k] == i + 1;
        assert k != 0;
        assert s'.queue[k - 1] == i + 1;
      }
    }
  }

  lemma CompletePreservesInv<Code>(s: Sim<Code>, pid: U32, pc: U32, reason: Reason)
    requires Inv(s) && pid in s.inFlight && ValidPid(s, pid)
    ensures Inv(Complete(s, pid, pc, reason))
  {
    var s' := Complete(s, pid, pc, reason);
    assert pid !in s.queue;
    assert pid !in s'.inFlight;
    forall k | 0 <= k < |s'.queue|
      ensures ValidPid(s', s'.queue[k]) && Slot(s', s'.queue[k]).state in {Ready, Terminated}
    {
      if k < |s.queue| {
        assert s'.queue[k] == s.queue[k] != pid;
      }
    }
    forall p | p in s'.inFlight
      ensures ValidPid(s', p) && Slot(s', p).state in {Running, Terminated}
    {
      assert p in s.inFlight && p != pid;
    }
  }

  // ---------------------------------------------------------------------------
  // Traces of operations

  /** One atomic step of the simulator: a lifecycle call or one half of a
      worker iteration. */
  datatype Action<Code> =
    | CreateAct(code: Code)
    | KillAct(target: U32)
    | EventAct
    | DispatchAct
    | CompleteAct(pid: U32, pc: U32, reason: Reason)

  /** The state after one step, or `None` when the step cannot occur: a kill
      of a pid outside the table, or a completion for a pid no worker holds. */
  function Step<Code>(s: Sim<Code>, a: Action<Code>): (r: Option<Sim<Code>>)
    requires Inv(s)
    ensures r.Some? ==> Inv(r.value)
    ensures r.Some? ==> |r.value.table| == |s.table| && Allocated(s) <= Allocated(r.value)
  {
    match a
    case CreateAct(code) =>
      CreatePreservesInv(s, code);
      Some(CreateProcess(s, code).0)
    case KillAct(pid) =>
      if ValidPid(s, pid) then KillPreservesInv(s, pid); Some(Kill(s, pid)) else None
    case EventAct => Some(Event(s))
    case DispatchAct =>
      DispatchPreservesInv(s);
      var s' := Dispatch(s).0;
      assert Allocated(s) <= Allocated(s');
      Some(s')
    case CompleteAct(pid, pc, reason) =>
      if pid in s.inFlight then
        CompletePreservesInv(s, pid, pc, reason);
        var s' := Complete(s, pid, pc, reason);
        assert Allocated(s) <= Allocated(s');
        Some(s')
      else None
  }

  /** The state after a sequence of steps, if every step can occur. */
  function Run<Code>(s: Sim<Code>, acts: seq<Action<Code>>): (r: Option<Sim<Code>>)
    requires Inv(s)
    ensures r.Some? ==> Inv(r.value)
    ensures r.Some? ==> |r.value.table| == |s.table| && Allocated(s) <= Allocated(r.value)
    decreases |acts|
  {
    if acts == [] then Some(s)
    else
      match Step(s, acts[0])
      case None => None
      case Some(s') => Run(s', acts[1..])
  }

  /** Every state reachable from `start` keeps pid == slot index + 1, never
      holds 0 as a pid, and keeps the table size fixed. */
  lemma ReachableKeepsIdentity<Code>(max: nat, filler: Code, acts: seq<Action<Code>>)
    requires max <= IntMax
    ensures Run(Start(max, filler), acts).Some? ==>
      var s := Run(Start(max, filler), acts).value;
      && |s.table| == max
      && (forall i :: 0 <= i < max ==> s.table[i].pid == i + 1 && s.table[i].pid != 0)
      && (forall k :: 0 <= k < |s.queue| ==> s.queue[k] != 0)
  {
  }

  /** Pids and slots are in bijection: slot `p - 1` carries pid `p`, and no
      two slots carry the same pid; 0 names no slot. */
  lemma PidsIdentifySlots<Code>(s: Sim<Code>)
    requires SlotIds(s)
    ensures forall p :: ValidPid(s, p) ==> Slot(s, p).pid == p
    ensures forall i, j :: 0 <= i < |s.table| && 0 <= j < |s.table| && s.table[i].pid == s.table[j].pid ==> i == j
    ensures !ValidPid(s, 0)
  {
  }

  // ---------------------------------------------------------------------------
  // Properties relating several operations

  /** After `kill(pid)`, `wait(pid)` can return. */
  lemma KillLetsWaitReturn<Code>(s: Sim<Code>, pid: U32)
    requires ValidPid(s, pid)
    ensures ValidPid(Kill(s, pid), pid) && CanWaitReturn(Kill(s, pid), pid)
  {
  }

  /** Because `kill` does not dequeue, a process killed while queued is
      dispatched again and marked running, so `wait` on it cannot return until
      the process terminates or is killed again: termination is not absorbing. */
  lemma KillThenDispatchRevives<Code>(s: Sim<Code>, pid: U32)
    requires Inv(s) && s.queue != [] && s.queue[0] == pid
    ensures ValidPid(Kill(s, pid), pid)
    ensures Dispatch(Kill(s, pid)).1 == Some(pid)
    ensures ValidPid(Dispatch(Kill(s, pid)).0, pid)
    ensures !CanWaitReturn(Dispatch(Kill(s, pid)).0, pid)
  {
    KillPreservesInv(s, pid);
  }

  /** A process whose timeslice ended goes behind every process that was
      already queued: the queue is round-robin. */
  lemma TimesliceIsRoundRobin<Code>(s: Sim<Code>, pid: U32, pc: U32)
    requires Inv(s) && pid in s.inFlight
    ensures ValidPid(s, pid)
    ensures Complete(s, pid, pc, ReasonTimesliceEnded).queue[..|s.queue|] == s.queue
    ensures Complete(s, pid, pc, ReasonTimesliceEnded).queue[|s.queue|] == pid
    ensures pid !in s.queue
  {
  }

  /** A process that was dispatched and then stopped for any reason other than
      termination or timeslice end stays running and is in no queue and held
      by no worker, so no later dispatch picks it up. */
  lemma BlockedReasonStrandsProcess<Code>(s: Sim<Code>, pid: U32, pc: U32)
    requires Inv(s) && pid in s.inFlight && Slot(s, pid).state == Running
    ensures ValidPid(s, pid)
    ensures Slot(Complete(s, pid, pc, ReasonBlocked), pid).state == Running
    ensures pid !in Complete(s, pid, pc, ReasonBlocked).queue
    ensures pid !in Complete(s, pid, pc, ReasonBlocked).inFlight
  {
    var s' := Complete(s, pid, pc, ReasonBlocked);
    assert pid !in s.queue;
    assert s.inFlight[pid] == 1;
  }

  /** Creates one process per code, in order, collecting the returned pids. */
  function CreateAll<Code>(s: Sim<Code>, codes: seq<Code>): (r: (Sim<Code>, seq<U32>))
    requires |s.table| <= IntMax
    ensures |r.0.table| == |s.table| && |r.1| == |codes|
    decreases |codes|
  {
    if codes == [] then (s, [])
    else
      var (s1, pid) := CreateProcess(s, codes[0]);
      var (s2, pids) := CreateAll(s1, codes[1..]);
      (s2, [pid] + pids)
  }

  /** On a table whose first `k` slots are allocated and whose remaining slots
      are free, successive creates hand out pids `k+1, k+2, ...` in order and
      queue them in that order. */
  lemma {:induction false} CreatesFillInOrder<Code>(s: Sim<Code>, k: nat, codes: seq<Code>)
    requires SlotIds(s) && k + |codes| <= |s.table|
    requires forall i :: 0 <= i < k ==> s.table[i].state != Unallocated
    requires forall i :: k <= i < |s.table| ==> s.table[i].state == Unallocated
    ensures CreateAll(s, codes).1 == seq(|codes|, j requires 0 <= j < |codes| => k + j + 1)
    ensures CreateAll(s, codes).0.queue == s.queue + CreateAll(s, codes).1
    ensures forall j :: 0 <= j < |codes| ==>
      CreateAll(s, codes).0.table[k + j] == Pcb(k + j + 1, Ready, codes[j], 0)
    decreases |codes|
  {
    if codes != [] {
      var (s1, pid) := CreateProcess(s, codes[0]);
      assert s.table[k].state == Unallocated;
      assert pid == k + 1;
      CreatesFillInOrder(s1, k + 1, codes[1..]);
      var (s2, pids) := CreateAll(s1, codes[1..]);
      assert CreateAll(s, codes) == (s2, [pid] + pids);
      forall j | 0 <= j < |codes|
        ensures s2.table[k + j] == Pcb(k + j + 1, Ready, codes[j], 0)
      {
        if j > 0 {
          assert codes[1..][j - 1] == codes[j];
        } else {
          CreateAllKeepsAllocated(s1, codes[1..], k);
        }
      }
    }
  }

  /** Creating processes never changes a slot that is already allocated. */
  lemma {:induction false} CreateAllKeepsAllocated<Code>(s: Sim<Code>, codes: seq<Code>, i: nat)
    requires |s.table| <= IntMax && i < |s.table| && s.table[i].state != Unallocated
    ensures CreateAll(s, codes).0.table[i] == s.table[i]
    decreases |codes|
  {
    if codes != [] {
      var s1 := CreateProcess(s, codes[0]).0;
      CreateAllKeepsAllocated(s1, codes[1..], i);
    }
  }

  /** From a freshly started table of size `max`, the first `max` creates
      return pids 1, 2, ... in order and queue them in that order. */
  lemma FreshTableAllocatesInOrder<Code>(max: nat, filler: Code, codes: seq<Code>)
    requires max <= IntMax && |codes| <= max
    ensures CreateAll(Start(max, filler), codes).1 == seq(|codes|, j requires 0 <= j < |codes| => j + 1)
    ensures CreateAll(Start(max, filler), codes).0.queue == CreateAll(Start(max, filler), codes).1
  {
    CreatesFillInOrder(Start(max, filler), 0, codes);
  }

  /** A full table makes `create` fail, and no step ever frees a slot, so
      from then on every `create` fails. */
  lemma FullStaysFull<Code>(s: Sim<Code>, acts: seq<Action<Code>>, code: Code)
    requires Inv(s)
    requires forall i :: 0 <= i < |s.table| ==> s.table[i].state != Unallocated
    requires Run(s, acts).Some?
    ensures CreateProcess(Run(s, acts).value, code).1 == 0
  {
    var s' := Run(s, acts).value;
    forall i | 0 <= i < |s'.table|
      ensures s'.table[i].state != Unallocated
    {
      assert i in Allocated(s);
    }
  }
}
