/** Fibers, their executor and any number of futexes. A fiber parks only after it has been suspended: the thread that
    ran it calls AwaitSuspend on the awaiter that lives on the fiber's own stack, and that awaiter looks at the cell
    again under the futex's spin lock. Every atomic access and every stretch under the spin lock between two such
    accesses is one event. The executor keeps what it is given and may resume fibers in any order. */
module Futexes {
  type Id = int
  type Addr = int

  /** A fiber, by its next action (or by that of the thread that has just suspended it). */
  datatype Pc =
    | Running                                    // in its own code
    | Yielding                                   // suspended, about to be scheduled by its YieldAwaiter
    | ReadyToRun                                 // in the executor
    | Entering(x: Addr, expected: int)                // ParkIfEqual: about to lock
    | Announced(x: Addr, expected: int)               // awaiter set, about to unlock and suspend
    | Suspended(x: Addr, expected: int)               // AwaitSuspend: about to lock and link the awaiter
    | Linked(x: Addr, expected: int, stamp: nat)      // AwaitSuspend: about to load the cell
    | Refused(x: Addr)                           // AwaitSuspend: unlinked, about to schedule the fiber
    | Parked(x: Addr, expected: int, stamp: nat)      // in the futex queue until somebody wakes it
    | Popped(x: Addr, waker: Id)                 // out of the queue, the waker is about to schedule it
    | Woken(x: Addr)                             // in the executor
    | Relocking(x: Addr)                         // resumed in ParkIfEqual, about to lock
    | Returning(x: Addr)                         // about to destroy the awaiter and unlock
    | WakeEntering(x: Addr, all: bool)           // WakeOne, WakeAll: about to lock
    | Waking(x: Addr, all: bool)                 // about to look at the queue
    | Awaking(x: Addr, all: bool, node: Id)      // about to schedule the popped fiber
    | Woke(x: Addr)                              // about to unlock
    | Finished

  datatype Lock = Free | ByFiber(f: Id) | ByTail(f: Id)

  datatype Futex = Futex(cell: int, lock: Lock, queue: seq<Id>)

  datatype State = State(
    futexes: map<Addr, Futex>,
    fibers: map<Id, Pc>,
    ready: multiset<Id>,                         // what the executor holds
    awaiters: map<Id, bool>,                     // live awaiters by fiber, and whether handle_ is valid
    // history
    clock: nat,                                  // stamps the links
    suspensions: map<Id, nat>,                   // a new fiber counts as suspended once
    schedules: map<Id, nat>)

  datatype Event =
    | Start(f: Id)                               // Go
    | Resume(f: Id)
    | Yield(f: Id)
    | YieldSchedule(f: Id)
    | Finish(f: Id)
    | Write(f: Id, x: Addr, value: int)
    | ParkIfEqual(f: Id, x: Addr, expected: int)
    | Announce(f: Id)
    | Suspend(f: Id)
    | Link(f: Id)
    | CheckCell(f: Id)
    | Refuse(f: Id)
    | LeaveSuspend(f: Id)
    | Relock(f: Id)
    | Return(f: Id)
    | Wake(f: Id, x: Addr, all: bool)
    | WakeLock(f: Id)
    | WakeNext(f: Id)
    | Awake(f: Id)
    | WakeUnlock(f: Id)

  ghost predicate Init(s: State) {
    && (forall x :: x in s.futexes ==> s.futexes[x].lock.Free? && s.futexes[x].queue == [])
    && s.fibers == map[] && s.ready == multiset{} && s.awaiters == map[]
    && s.clock == 0 && s.suspensions == map[] && s.schedules == map[]
  }

  function PcOf(s: State, f: Id): Pc {
    if f in s.fibers then s.fibers[f] else Finished
  }

  function FutexAt(s: State, x: Addr): Futex {
    if x in s.futexes then s.futexes[x] else Futex(0, Free, [])
  }

  function CountAt(m: map<Id, nat>, f: Id): nat {
    if f in m then m[f] else 0
  }

  function Go(s: State, f: Id, pc: Pc): State {
    s.(fibers := s.fibers[f := pc])
  }

  function Put(s: State, x: Addr, futex: Futex): State {
    s.(futexes := s.futexes[x := futex])
  }

  function SetLock(s: State, x: Addr, lock: Lock): State {
    Put(s, x, FutexAt(s, x).(lock := lock))
  }

  function SetQueue(s: State, x: Addr, queue: seq<Id>): State {
    Put(s, x, FutexAt(s, x).(queue := queue))
  }

  /** Fiber::Schedule: the executor gets one more copy of the fiber. */
  function Schedule(s: State, f: Id, pc: Pc): State {
    Go(s, f, pc).(ready := s.ready + multiset{f}, schedules := s.schedules[f := CountAt(s.schedules, f) + 1])
  }

  function CountSuspension(s: State, f: Id): State {
    s.(suspensions := s.suspensions[f := CountAt(s.suspensions, f) + 1])
  }

  predicate LockFree(s: State, x: Addr) {
    x in s.futexes && s.futexes[x].lock.Free?
  }

  predicate Enabled(s: State, e: Event) {
    var pc := PcOf(s, e.f);
    match e
    case Start(f) => f !in s.fibers
    case Resume(f) => f in s.ready && (pc.ReadyToRun? || pc.Woken?)
    case Yield(_) => pc.Running?
    case YieldSchedule(_) => pc.Yielding?
    case Finish(_) => pc.Running?
    case Write(_, x, _) => pc.Running? && x in s.futexes
    case ParkIfEqual(_, x, _) => pc.Running? && x in s.futexes
    case Announce(_) => pc.Entering? && LockFree(s, pc.x)
    case Suspend(_) => pc.Announced?
    case Link(_) => pc.Suspended? && LockFree(s, pc.x)
    case CheckCell(_) => pc.Linked?
    case Refuse(_) => pc.Refused?
    case LeaveSuspend(f) => (pc.Parked? || pc.Woken? || pc.Relocking?) && FutexAt(s, pc.x).lock == ByTail(f)
    case Relock(_) => pc.Relocking? && LockFree(s, pc.x)
    case Return(_) => pc.Returning?
    case Wake(_, x, _) => pc.Running? && x in s.futexes
    case WakeLock(_) => pc.WakeEntering? && LockFree(s, pc.x)
    case WakeNext(_) => pc.Waking?
    case Awake(_) => pc.Awaking?
    case WakeUnlock(_) => pc.Woke?
  }

  function DoStart(s: State, f: Id): State {
    Schedule(CountSuspension(s, f), f, ReadyToRun)
  }

  function DoResume(s: State, f: Id): State {
    var pc := PcOf(s, f);
    Go(s, f, if pc.Woken? then Relocking(pc.x) else Running).(ready := s.ready - multiset{f})
  }

  function DoYield(s: State, f: Id): State {
    Go(CountSuspension(s, f), f, Yielding)
  }

  function DoWrite(s: State, x: Addr, value: int): State {
    Put(s, x, FutexAt(s, x).(cell := value))
  }

  function DoAnnounce(s: State, f: Id): State
    requires PcOf(s, f).Entering?
  {
    var pc := PcOf(s, f);
    Go(SetLock(s, pc.x, ByFiber(f)), f, Announced(pc.x, pc.expected)).(awaiters := s.awaiters[f := false])
  }

  function DoSuspend(s: State, f: Id): State
    requires PcOf(s, f).Announced?
  {
    var pc := PcOf(s, f);
    Go(CountSuspension(SetLock(s, pc.x, Free), f), f, Suspended(pc.x, pc.expected))
  }

  function DoLink(s: State, f: Id): State
    requires PcOf(s, f).Suspended?
  {
    var pc := PcOf(s, f);
    var futex := FutexAt(s, pc.x);
    Go(Put(s, pc.x, futex.(lock := ByTail(f), queue := futex.queue + [f])), f, Linked(pc.x, pc.expected, s.clock)).
      (awaiters := s.awaiters[f := true], clock := s.clock + 1)
  }

  function DoCheckCell(s: State, f: Id): State
    requires PcOf(s, f).Linked?
  {
    var pc := PcOf(s, f);
    var futex := FutexAt(s, pc.x);
    if futex.cell != pc.expected then Go(SetQueue(s, pc.x, Unlinked(futex.queue, f)), f, Refused(pc.x))
    else Go(s, f, Parked(pc.x, pc.expected, pc.stamp))
  }

  /** The place of the first entry for f, from place i on. */
  function Find(queue: seq<Id>, f: Id, i: nat): (k: nat)
    requires i <= |queue|
    ensures i <= k <= |queue| && (k < |queue| ==> queue[k] == f)
    ensures forall j :: i <= j < k ==> queue[j] != f
    decreases |queue| - i
  {
    if i == |queue| || queue[i] == f then i else Find(queue, f, i + 1)
  }

  /** Unlink on an intrusive list; it does nothing to a node that is not linked. */
  function Unlinked(queue: seq<Id>, f: Id): seq<Id> {
    var k := Find(queue, f, 0);
    if k < |queue| then queue[..k] + queue[k + 1..] else queue
  }

  function DoReturn(s: State, f: Id): State
    requires PcOf(s, f).Returning?
  {
    var x := PcOf(s, f).x;
    Go(Put(s, x, FutexAt(s, x).(lock := Free, queue := Unlinked(FutexAt(s, x).queue, f))), f, Running).
      (awaiters := s.awaiters - {f})
  }

  function DoWakeLock(s: State, f: Id): State
    requires PcOf(s, f).WakeEntering?
  {
    var pc := PcOf(s, f);
    Go(SetLock(s, pc.x, ByFiber(f)), f, Waking(pc.x, pc.all))
  }

  function DoWakeNext(s: State, f: Id): State
    requires PcOf(s, f).Waking?
  {
    var pc := PcOf(s, f);
    var queue := FutexAt(s, pc.x).queue;
    if queue == [] then Go(s, f, Woke(pc.x))
    else
      var node := queue[0];
      Go(Go(SetQueue(s, pc.x, queue[1..]), node, Popped(pc.x, f)), f, Awaking(pc.x, pc.all, node))
  }

  /** handle_ is emptied by Schedule; WakeAll goes on, WakeOne is done. */
  function DoAwake(s: State, f: Id): State
    requires PcOf(s, f).Awaking?
  {
    var pc := PcOf(s, f);
    Go(Schedule(s, pc.node, Woken(pc.x)), f, if pc.all then Waking(pc.x, true) else Woke(pc.x)).
      (awaiters := s.awaiters[pc.node := false])
  }

  function Perform(s: State, e: Event): State
    requires Enabled(s, e)
  {
    var pc := PcOf(s, e.f);
    match e
    case Start(f) => DoStart(s, f)
    case Resume(f) => DoResume(s, f)
    case Yield(f) => DoYield(s, f)
    case YieldSchedule(f) => Schedule(s, f, ReadyToRun)
    case Finish(f) => Go(s, f, Finished)
    case Write(_, x, value) => DoWrite(s, x, value)
    case ParkIfEqual(f, x, expected) => Go(s, f, Entering(x, expected))
    case Announce(f) => DoAnnounce(s, f)
    case Suspend(f) => DoSuspend(s, f)
    case Link(f) => DoLink(s, f)
    case CheckCell(f) => DoCheckCell(s, f)
    case Refuse(f) => Schedule(s, f, Woken(pc.x))
    case LeaveSuspend(_) => SetLock(s, pc.x, Free)
    case Relock(f) => Go(SetLock(s, pc.x, ByFiber(f)), f, Returning(pc.x))
    case Return(f) => DoReturn(s, f)
    case Wake(f, x, all) => Go(s, f, WakeEntering(x, all))
    case WakeLock(f) => DoWakeLock(s, f)
    case WakeNext(f) => DoWakeNext(s, f)
    case Awake(f) => DoAwake(s, f)
    case WakeUnlock(f) => Go(SetLock(s, pc.x, Free), f, Running)
  }

  ghost predicate Step(s: State, e: Event, s': State) {
    Enabled(s, e) && s' == Perform(s, e)
  }

  // ----- invariant

  predicate Queued(pc: Pc) { pc.Linked? || pc.Parked? }

  predicate InExecutor(pc: Pc) { pc.ReadyToRun? || pc.Woken? }

  /** The fiber's code is being run by some thread. */
  predicate Executing(pc: Pc) {
    pc.Running? || pc.Entering? || pc.Announced? || pc.Relocking? || pc.Returning? || pc.WakeEntering? || pc.Waking?
    || pc.Awaking? || pc.Woke?
  }

  /** Suspended, and nobody has scheduled it since. */
  predicate Dormant(pc: Pc) {
    pc.Yielding? || pc.Suspended? || pc.Linked? || pc.Refused? || pc.Parked? || pc.Popped?
  }

  predicate HasAwaiter(pc: Pc) {
    pc.Announced? || pc.Suspended? || pc.Linked? || pc.Refused? || pc.Parked? || pc.Popped? || pc.Woken?
    || pc.Relocking? || pc.Returning?
  }

  predicate OnFutex(pc: Pc) {
    HasAwaiter(pc) || pc.Entering? || pc.WakeEntering? || pc.Waking? || pc.Awaking? || pc.Woke?
  }

  predicate HoldsLock(pc: Pc) {
    pc.Announced? || pc.Returning? || pc.Waking? || pc.Awaking? || pc.Woke?
  }

  /** The bookkeeping of one fiber: executor, awaiter, schedules. */
  ghost predicate FiberOk(s: State, f: Id)
    requires f in s.fibers
  {
    var pc := s.fibers[f];
    && s.ready[f] == (if InExecutor(pc) then 1 else 0)
    && (f in s.awaiters <==> HasAwaiter(pc))
    && (Queued(pc) || pc.Popped? ==> f in s.awaiters && s.awaiters[f])
    && CountAt(s.suspensions, f) == CountAt(s.schedules, f) + (if Dormant(pc) then 1 else 0)
  }

  /** How one fiber stands to its futex and to its waker. */
  ghost predicate PlaceOk(s: State, f: Id)
    requires f in s.fibers
  {
    var pc := s.fibers[f];
    && (OnFutex(pc) ==> pc.x in s.futexes)
    && (HoldsLock(pc) ==> FutexAt(s, pc.x).lock == ByFiber(f))
    && (pc.Linked? || pc.Refused? ==> FutexAt(s, pc.x).lock == ByTail(f))
    && (Queued(pc) ==> f in FutexAt(s, pc.x).queue)
    && (pc.Popped? ==> PcOf(s, pc.waker).Awaking? && PcOf(s, pc.waker).node == f && PcOf(s, pc.waker).x == pc.x)
    && (pc.Awaking? ==> PcOf(s, pc.node) == Popped(pc.x, f))
  }

  /** Everybody in a futex's queue is waiting there, in the order of linking. */
  ghost predicate QueueFits(fibers: map<Id, Pc>, queue: seq<Id>, x: Addr, clock: nat) {
    && (forall i :: 0 <= i < |queue| ==>
          queue[i] in fibers && Queued(fibers[queue[i]]) && fibers[queue[i]].x == x && fibers[queue[i]].stamp < clock)
    && (forall i, j :: 0 <= i < j < |queue| ==> fibers[queue[i]].stamp < fibers[queue[j]].stamp)
  }

  ghost predicate QueueOk(s: State, x: Addr)
    requires x in s.futexes
  {
    QueueFits(s.fibers, s.futexes[x].queue, x, s.clock)
  }

  /** A futex's spin lock is held by whoever is at a program point inside it. */
  ghost predicate LockOk(s: State, x: Addr)
    requires x in s.futexes
  {
    match s.futexes[x].lock
    case Free => true
    case ByFiber(f) => f in s.fibers && HoldsLock(s.fibers[f]) && s.fibers[f].x == x
    case ByTail(f) =>
      && f in s.fibers
      && (Queued(s.fibers[f]) || s.fibers[f].Refused? || s.fibers[f].Woken? || s.fibers[f].Relocking?)
      && s.fibers[f].x == x
  }

  ghost predicate FibersInv(s: State) {
    forall f :: f in s.fibers ==> FiberOk(s, f)
  }

  /** Nothing is known about fibers that do not exist. */
  ghost predicate StrangersInv(s: State) {
    forall f :: f !in s.fibers ==>
      s.ready[f] == 0 && f !in s.awaiters && CountAt(s.suspensions, f) == 0 && CountAt(s.schedules, f) == 0
  }

  ghost predicate PlacesInv(s: State) {
    forall f :: f in s.fibers ==> PlaceOk(s, f)
  }

  ghost predicate QueuesInv(s: State) {
    forall x :: x in s.futexes ==> QueueOk(s, x)
  }

  ghost predicate LocksInv(s: State) {
    forall x :: x in s.futexes ==> LockOk(s, x)
  }

  ghost predicate Inv(s: State) {
    FibersInv(s) && StrangersInv(s) && PlacesInv(s) && QueuesInv(s) && LocksInv(s)
  }

  lemma InitHolds(s: State)
    requires Init(s)
    ensures Inv(s)
  {
  }
}
