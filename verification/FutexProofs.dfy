/** The futex model keeps its invariant, and what follows from it on every run. */
module FutexProofs {
  import opened Lists
  import opened Futexes
  import Runs

  // ----- each event keeps it

  /** Neither in a queue nor between being popped and being scheduled. */
  predicate Movable(pc: Pc) {
    !Queued(pc) && !pc.Popped? && !pc.Awaking?
  }

  predicate Mine(lock: Lock, f: Id) {
    lock == Free || lock == ByFiber(f) || lock == ByTail(f)
  }

  ghost predicate SameBooks(s: State, s': State, g: Id) {
    && PcOf(s, g) == PcOf(s', g) && (g in s.fibers <==> g in s'.fibers)
    && s.ready[g] == s'.ready[g]
    && (g in s.awaiters <==> g in s'.awaiters)
    && (g in s.awaiters ==> s.awaiters[g] == s'.awaiters[g])
    && CountAt(s.suspensions, g) == CountAt(s'.suspensions, g)
    && CountAt(s.schedules, g) == CountAt(s'.schedules, g)
  }

  ghost predicate FutexMoves(s: State, s': State, f: Id, x: Addr) {
    && FutexAt(s, x).queue == FutexAt(s', x).queue
    && Mine(FutexAt(s, x).lock, f) == Mine(FutexAt(s', x).lock, f)
    && (!Mine(FutexAt(s, x).lock, f) ==> FutexAt(s, x).lock == FutexAt(s', x).lock)
    && (x in s'.futexes && Mine(FutexAt(s, x).lock, f) ==> LockOk(s', x))
  }

  /** One fiber moves, taking or releasing spin locks at most; queues stay as they are. */
  ghost predicate OnlyMoves(s: State, s': State, f: Id) {
    && f in s'.fibers && FiberOk(s', f) && PlaceOk(s', f)
    && (PcOf(s, f) == PcOf(s', f) || (Movable(PcOf(s, f)) && Movable(PcOf(s', f))))
    && (forall g :: g != f ==> SameBooks(s, s', g))
    && s'.futexes.Keys == s.futexes.Keys && s'.clock == s.clock
    && forall x :: x in s.futexes ==> FutexMoves(s, s', f, x)
  }

  lemma MoveFibers(s: State, s': State, f: Id)
    requires Inv(s) && OnlyMoves(s, s', f)
    ensures FibersInv(s') && StrangersInv(s')
  {
    forall g | g != f
      ensures g in s'.fibers ==> FiberOk(s', g)
      ensures g !in s'.fibers ==>
                s'.ready[g] == 0 && g !in s'.awaiters && CountAt(s'.suspensions, g) == 0 && CountAt(s'.schedules, g) == 0
    {
      assert SameBooks(s, s', g);
    }
  }

  lemma MovePlaces(s: State, s': State, f: Id)
    requires Inv(s) && OnlyMoves(s, s', f)
    ensures PlacesInv(s')
  {
    forall g | g in s'.fibers && g != f ensures PlaceOk(s', g) {
      assert SameBooks(s, s', g);
      assert PlaceOk(s, g);
      var pc := s.fibers[g];
      if OnFutex(pc) {
        assert FutexMoves(s, s', f, pc.x);
      }
      if pc.Popped? {
        assert pc.waker != f ==> SameBooks(s, s', pc.waker);
      }
      if pc.Awaking? {
        assert pc.node != f ==> SameBooks(s, s', pc.node);
      }
    }
  }

  lemma MoveQueues(s: State, s': State, f: Id)
    requires Inv(s) && OnlyMoves(s, s', f)
    ensures QueuesInv(s')
  {
    forall x | x in s'.futexes ensures QueueOk(s', x) {
      assert QueueOk(s, x) && FutexMoves(s, s', f, x);
      forall i | 0 <= i < |s.futexes[x].queue| ensures PcOf(s, s.futexes[x].queue[i]) == PcOf(s', s.futexes[x].queue[i]) {
        assert s.futexes[x].queue[i] != f ==> SameBooks(s, s', s.futexes[x].queue[i]);
      }
    }
  }

  lemma MoveLocks(s: State, s': State, f: Id)
    requires Inv(s) && OnlyMoves(s, s', f)
    ensures LocksInv(s')
  {
    forall x | x in s'.futexes ensures LockOk(s', x) {
      assert LockOk(s, x) && FutexMoves(s, s', f, x);
      var lock := s.futexes[x].lock;
      if !Mine(lock, f) {
        assert SameBooks(s, s', lock.f);
      }
    }
  }

  /** What a move of one fiber depends on. */
  ghost predicate LocalInv(s: State, f: Id) {
    && (f in s.fibers ==> FiberOk(s, f) && PlaceOk(s, f))
    && (f !in s.fibers ==>
          s.ready[f] == 0 && f !in s.awaiters && CountAt(s.suspensions, f) == 0 && CountAt(s.schedules, f) == 0)
    && LocksInv(s)
  }

  lemma ResumeMoves(s: State, f: Id)
    requires LocalInv(s, f) && Enabled(s, Resume(f))
    ensures OnlyMoves(s, Perform(s, Resume(f)), f)
  {
  }

  lemma HandMoves(s: State, f: Id, pc: Pc)
    requires LocalInv(s, f) && f in s.fibers
    requires (PcOf(s, f).Yielding? && pc.ReadyToRun?) || (PcOf(s, f).Refused? && pc == Woken(PcOf(s, f).x))
    ensures OnlyMoves(s, Schedule(s, f, pc), f)
  {
  }

  lemma ScheduleMoves(s: State, e: Event)
    requires LocalInv(s, e.f) && Enabled(s, e) && (e.YieldSchedule? || e.Refuse?)
    ensures OnlyMoves(s, Perform(s, e), e.f)
  {
    HandMoves(s, e.f, if e.Refuse? then Woken(s.fibers[e.f].x) else ReadyToRun);
  }

  lemma FinishMoves(s: State, f: Id)
    requires LocalInv(s, f) && Enabled(s, Finish(f))
    ensures OnlyMoves(s, Go(s, f, Finished), f)
  {
  }

  lemma CallMoves(s: State, f: Id, pc: Pc)
    requires LocalInv(s, f) && PcOf(s, f).Running? && (pc.Entering? || pc.WakeEntering?) && pc.x in s.futexes
    ensures OnlyMoves(s, Go(s, f, pc), f)
  {
  }

  lemma CodeMoves(s: State, e: Event)
    requires LocalInv(s, e.f) && Enabled(s, e) && (e.Finish? || e.ParkIfEqual? || e.Wake?)
    ensures OnlyMoves(s, Perform(s, e), e.f)
  {
    if e.Finish? {
      FinishMoves(s, e.f);
    } else if e.ParkIfEqual? {
      CallMoves(s, e.f, Entering(e.x, e.expected));
    } else {
      CallMoves(s, e.f, WakeEntering(e.x, e.all));
    }
  }

  lemma WriteMoves(s: State, e: Event)
    requires LocalInv(s, e.f) && Enabled(s, e) && e.Write?
    ensures OnlyMoves(s, Perform(s, e), e.f)
  {
  }

  lemma StartMoves(s: State, e: Event)
    requires LocalInv(s, e.f) && Enabled(s, e) && e.Start?
    ensures OnlyMoves(s, Perform(s, e), e.f)
  {
  }

  lemma YieldMoves(s: State, e: Event)
    requires LocalInv(s, e.f) && Enabled(s, e) && e.Yield?
    ensures OnlyMoves(s, Perform(s, e), e.f)
  {
  }

  lemma AnnounceMoves(s: State, e: Event)
    requires LocalInv(s, e.f) && Enabled(s, e) && e.Announce?
    ensures OnlyMoves(s, Perform(s, e), e.f)
  {
  }

  lemma RelockMoves(s: State, e: Event)
    requires LocalInv(s, e.f) && Enabled(s, e) && e.Relock?
    ensures OnlyMoves(s, Perform(s, e), e.f)
  {
  }

  lemma WakeLockMoves(s: State, e: Event)
    requires LocalInv(s, e.f) && Enabled(s, e) && e.WakeLock?
    ensures OnlyMoves(s, Perform(s, e), e.f)
  {
  }

  lemma SuspendMoves(s: State, e: Event)
    requires LocalInv(s, e.f) && Enabled(s, e) && e.Suspend?
    ensures OnlyMoves(s, Perform(s, e), e.f)
  {
  }

  lemma LeaveSuspendMoves(s: State, e: Event)
    requires LocalInv(s, e.f) && Enabled(s, e) && e.LeaveSuspend?
    ensures OnlyMoves(s, Perform(s, e), e.f)
  {
  }

  lemma WakeUnlockMoves(s: State, e: Event)
    requires LocalInv(s, e.f) && Enabled(s, e) && e.WakeUnlock?
    ensures OnlyMoves(s, Perform(s, e), e.f)
  {
  }

  lemma MoveKeepsInv(s: State, s': State, f: Id)
    requires Inv(s) && OnlyMoves(s, s', f)
    ensures Inv(s')
  {
    MoveFibers(s, s', f);
    MovePlaces(s, s', f);
    MoveQueues(s, s', f);
    MoveLocks(s, s', f);
  }

  /** Unlinking takes out one entry and keeps the order of the rest. */
  lemma UnlinkedSplit(queue: seq<Id>, f: Id) returns (k: nat)
    ensures f !in queue ==> Unlinked(queue, f) == queue
    ensures f in queue ==> k < |queue| && queue[k] == f && Unlinked(queue, f) == queue[..k] + queue[k + 1..]
  {
    k := Find(queue, f, 0);
  }

  lemma LinkBooks(s: State, f: Id)
    requires Inv(s) && Enabled(s, Link(f))
    ensures FibersInv(Perform(s, Link(f))) && StrangersInv(Perform(s, Link(f))) && LocksInv(Perform(s, Link(f)))
  {
  }

  lemma LinkPlaces(s: State, f: Id)
    requires Inv(s) && Enabled(s, Link(f))
    ensures PlacesInv(Perform(s, Link(f)))
  {
  }

  lemma LinkQueues(s: State, f: Id)
    requires Inv(s) && Enabled(s, Link(f))
    ensures QueuesInv(Perform(s, Link(f)))
  {
  }

  lemma UnlinkedMembers(queue: seq<Id>, f: Id)
    ensures forall g :: g in queue && g != f ==> g in Unlinked(queue, f)
  {
    var k := Find(queue, f, 0);
    if k < |queue| {
      assert queue == queue[..k] + [queue[k]] + queue[k + 1..];
    }
  }

  lemma CheckCellBooks(s: State, f: Id)
    requires Inv(s) && Enabled(s, CheckCell(f))
    ensures FibersInv(Perform(s, CheckCell(f))) && StrangersInv(Perform(s, CheckCell(f)))
  {
  }

  lemma CheckCellLocks(s: State, f: Id)
    requires Inv(s) && Enabled(s, CheckCell(f))
    ensures LocksInv(Perform(s, CheckCell(f)))
  {
  }

  ghost predicate Mismatch(s: State, f: Id) {
    Enabled(s, CheckCell(f)) && FutexAt(s, PcOf(s, f).x).cell != PcOf(s, f).expected
  }

  lemma ParkQueues(s: State, f: Id)
    requires Inv(s) && Enabled(s, CheckCell(f)) && !Mismatch(s, f)
    ensures QueuesInv(Perform(s, CheckCell(f)))
  {
  }

  lemma ParkPlaces(s: State, f: Id)
    requires Inv(s) && Enabled(s, CheckCell(f)) && !Mismatch(s, f)
    ensures PlacesInv(Perform(s, CheckCell(f)))
  {
  }

  /** Only f's own place depends on what leaves the queue. */
  lemma RefuseOthers(s: State, f: Id, g: Id)
    requires Inv(s) && Mismatch(s, f) && g in s.fibers && g != f
    ensures PlaceOk(Perform(s, CheckCell(f)), g)
  {
    assert PlaceOk(s, g) && PlaceOk(s, f);
    UnlinkedMembers(FutexAt(s, s.fibers[f].x).queue, f);
  }

  lemma RefusePlaces(s: State, f: Id)
    requires Inv(s) && Mismatch(s, f)
    ensures PlacesInv(Perform(s, CheckCell(f)))
  {
    var s' := Perform(s, CheckCell(f));
    assert PlaceOk(s, f);
    forall g | g in s'.fibers ensures PlaceOk(s', g) {
      if g != f {
        RefuseOthers(s, f, g);
      }
    }
  }

  function Skip(k: nat, i: nat): nat {
    if i < k then i else i + 1
  }

  /** A queue that loses one entry still fits; the entry's fiber may be anywhere now. */
  lemma FitsWithout(fibers: map<Id, Pc>, queue: seq<Id>, rest: seq<Id>, x: Addr, clock: nat, k: nat, pc: Pc)
    requires QueueFits(fibers, queue, x, clock) && k < |queue| && rest == queue[..k] + queue[k + 1..]
    ensures QueueFits(fibers[queue[k] := pc], rest, x, clock)
  {
    forall i | 0 <= i < |rest| ensures rest[i] == queue[Skip(k, i)] && rest[i] != queue[k] {
      assert Skip(k, i) < k ==> fibers[queue[Skip(k, i)]].stamp < fibers[queue[k]].stamp;
      assert k < Skip(k, i) ==> fibers[queue[k]].stamp < fibers[queue[Skip(k, i)]].stamp;
    }
  }

  lemma RefuseOwnQueue(s: State, f: Id)
    requires f in s.fibers && s.fibers[f].Linked? && s.fibers[f].x in s.futexes && PlaceOk(s, f)
    requires QueueOk(s, s.fibers[f].x) && Mismatch(s, f)
    ensures QueueOk(Perform(s, CheckCell(f)), s.fibers[f].x)
  {
    var x := s.fibers[f].x;
    var queue := s.futexes[x].queue;
    var k := UnlinkedSplit(queue, f);
    FitsWithout(s.fibers, queue, Unlinked(queue, f), x, s.clock, k, Refused(x));
  }

  lemma RefuseOtherQueue(s: State, f: Id, y: Addr)
    requires Inv(s) && Mismatch(s, f) && y in s.futexes && y != s.fibers[f].x
    ensures QueueOk(Perform(s, CheckCell(f)), y)
  {
    assert QueueOk(s, y);
  }

  lemma RefuseQueues(s: State, f: Id)
    requires Inv(s) && Mismatch(s, f)
    ensures QueuesInv(Perform(s, CheckCell(f)))
  {
    assert PlaceOk(s, f) && QueueOk(s, s.fibers[f].x);
    RefuseOwnQueue(s, f);
    forall y | y in s.futexes && y != s.fibers[f].x ensures QueueOk(Perform(s, CheckCell(f)), y) {
      RefuseOtherQueue(s, f, y);
    }
  }

  /** The destructor's Unlink finds nothing to do. */
  lemma ReturnUnlinked(s: State, f: Id)
    requires Inv(s) && Enabled(s, Return(f))
    ensures var queue := FutexAt(s, s.fibers[f].x).queue; f !in queue && Unlinked(queue, f) == queue
  {
    var x := s.fibers[f].x;
    assert QueueOk(s, x);
    var k := UnlinkedSplit(s.futexes[x].queue, f);
  }

  lemma ReturnMoves(s: State, f: Id)
    requires LocalInv(s, f) && Enabled(s, Return(f))
    requires var queue := FutexAt(s, PcOf(s, f).x).queue; Unlinked(queue, f) == queue
    ensures OnlyMoves(s, Perform(s, Return(f)), f)
  {
  }

  lemma WakeEmptyMoves(s: State, f: Id)
    requires LocalInv(s, f) && Enabled(s, WakeNext(f)) && FutexAt(s, PcOf(s, f).x).queue == []
    ensures OnlyMoves(s, Perform(s, WakeNext(f)), f)
  {
  }

  ghost predicate Popping(s: State, f: Id) {
    Enabled(s, WakeNext(f)) && FutexAt(s, PcOf(s, f).x).queue != []
  }

  /** The popped fiber was parked: the lock is the waker's, so no AwaitSuspend is under way there. */
  lemma PoppedWasParked(s: State, f: Id)
    requires Inv(s) && Popping(s, f)
    ensures var x := PcOf(s, f).x; var node := FutexAt(s, x).queue[0];
            node in s.fibers && s.fibers[node].Parked? && s.fibers[node].x == x && node != f
  {
    var x := PcOf(s, f).x;
    assert QueueOk(s, x) && PlaceOk(s, f) && PlaceOk(s, s.futexes[x].queue[0]);
  }

  lemma PopBooks(s: State, f: Id)
    requires Inv(s) && Popping(s, f)
    ensures FibersInv(Perform(s, WakeNext(f))) && StrangersInv(Perform(s, WakeNext(f)))
  {
    PoppedWasParked(s, f);
  }

  lemma PopPlace(s: State, f: Id, g: Id)
    requires Inv(s) && Popping(s, f) && g in s.fibers
    ensures PlaceOk(Perform(s, WakeNext(f)), g)
  {
    PoppedWasParked(s, f);
    var queue := s.futexes[PcOf(s, f).x].queue;
    assert queue == [queue[0]] + queue[1..];
    assert PlaceOk(s, f) && PlaceOk(s, g);
  }

  lemma PopPlaces(s: State, f: Id)
    requires Inv(s) && Popping(s, f)
    ensures PlacesInv(Perform(s, WakeNext(f)))
  {
    PoppedWasParked(s, f);
    forall g | g in s.fibers ensures PlaceOk(Perform(s, WakeNext(f)), g) {
      PopPlace(s, f, g);
    }
  }

  /** A queue that loses its first entry still fits, wherever that fiber and its waker are now. */
  lemma FitsTail(fibers: map<Id, Pc>, queue: seq<Id>, x: Addr, clock: nat, popped: Pc, f: Id, pc: Pc)
    requires QueueFits(fibers, queue, x, clock) && queue != [] && f !in queue
    ensures QueueFits(fibers[queue[0] := popped][f := pc], queue[1..], x, clock)
  {
    var fibers' := fibers[queue[0] := popped][f := pc];
    forall i | 0 <= i < |queue[1..]| ensures queue[1..][i] in fibers' && fibers'[queue[1..][i]] == fibers[queue[i + 1]] {
      assert fibers[queue[0]].stamp < fibers[queue[i + 1]].stamp;
    }
  }

  lemma WakerNotQueued(s: State, f: Id)
    requires Inv(s) && Popping(s, f)
    ensures f !in FutexAt(s, PcOf(s, f).x).queue
  {
    assert QueueOk(s, PcOf(s, f).x);
  }

  lemma PopOwnQueue(s: State, f: Id)
    requires Inv(s) && Popping(s, f)
    ensures PcOf(s, f).x in s.futexes && QueueOk(Perform(s, WakeNext(f)), PcOf(s, f).x)
  {
    var pc := PcOf(s, f);
    assert QueueOk(s, pc.x);
    WakerNotQueued(s, f);
    FitsTail(s.fibers, s.futexes[pc.x].queue, pc.x, s.clock, Popped(pc.x, f), f, Awaking(pc.x, pc.all, s.futexes[pc.x].queue[0]));
  }

  lemma PopOtherQueue(s: State, f: Id, y: Addr)
    requires Inv(s) && Popping(s, f) && y in s.futexes && y != PcOf(s, f).x
    ensures QueueOk(Perform(s, WakeNext(f)), y)
  {
    PoppedWasParked(s, f);
    assert QueueOk(s, y);
    var queue := s.futexes[y].queue;
    forall i | 0 <= i < |queue| ensures s.fibers[queue[i]].x == y && Queued(s.fibers[queue[i]]) { }
  }

  lemma PopQueues(s: State, f: Id)
    requires Inv(s) && Popping(s, f)
    ensures QueuesInv(Perform(s, WakeNext(f)))
  {
    PopOwnQueue(s, f);
    forall y | y in s.futexes && y != PcOf(s, f).x ensures QueueOk(Perform(s, WakeNext(f)), y) {
      PopOtherQueue(s, f, y);
    }
  }

  lemma PopLocks(s: State, f: Id)
    requires Inv(s) && Popping(s, f)
    ensures LocksInv(Perform(s, WakeNext(f)))
  {
    PoppedWasParked(s, f);
  }

  lemma AwakeFiber(s: State, f: Id, g: Id)
    requires Inv(s) && Enabled(s, Awake(f)) && g in s.fibers
    ensures FiberOk(Perform(s, Awake(f)), g)
  {
    assert PlaceOk(s, f) && FiberOk(s, g);
  }

  lemma AwakeFibers(s: State, f: Id)
    requires Inv(s) && Enabled(s, Awake(f))
    ensures FibersInv(Perform(s, Awake(f))) && StrangersInv(Perform(s, Awake(f)))
  {
    assert PlaceOk(s, f);
    forall g | g in s.fibers ensures FiberOk(Perform(s, Awake(f)), g) {
      AwakeFiber(s, f, g);
    }
  }

  lemma AwakePlaces(s: State, f: Id)
    requires Inv(s) && Enabled(s, Awake(f))
    ensures PlacesInv(Perform(s, Awake(f)))
  {
  }

  lemma AwakeQueues(s: State, f: Id)
    requires Inv(s) && Enabled(s, Awake(f))
    ensures QueuesInv(Perform(s, Awake(f)))
  {
  }

  lemma AwakeLocks(s: State, f: Id)
    requires Inv(s) && Enabled(s, Awake(f))
    ensures LocksInv(Perform(s, Awake(f)))
  {
  }

  lemma StepKeepsInv(s: State, e: Event, s': State)
    requires Inv(s) && Step(s, e, s')
    ensures Inv(s')
  {
    var f := e.f;
    if e.Link? {
      LinkBooks(s, f);
      LinkPlaces(s, f);
      LinkQueues(s, f);
    } else if e.CheckCell? {
      CheckCellBooks(s, f);
      CheckCellLocks(s, f);
      if Mismatch(s, f) {
        RefusePlaces(s, f);
        RefuseQueues(s, f);
      } else {
        ParkPlaces(s, f);
        ParkQueues(s, f);
      }
    } else if Popping(s, f) && e.WakeNext? {
      PopBooks(s, f);
      PopPlaces(s, f);
      PopQueues(s, f);
      PopLocks(s, f);
    } else if e.Awake? {
      AwakeFibers(s, f);
      AwakePlaces(s, f);
      AwakeQueues(s, f);
      AwakeLocks(s, f);
    } else {
      StepMovesOne(s, e);
      MoveKeepsInv(s, s', f);
    }
  }

  lemma StepTakesLock(s: State, e: Event)
    requires LocalInv(s, e.f) && Enabled(s, e) && (e.Announce? || e.Relock? || e.WakeLock?)
    ensures OnlyMoves(s, Perform(s, e), e.f)
  {
    if e.Announce? {
      AnnounceMoves(s, e);
    } else if e.Relock? {
      RelockMoves(s, e);
    } else {
      WakeLockMoves(s, e);
    }
  }

  lemma StepFreesLock(s: State, e: Event)
    requires LocalInv(s, e.f) && Enabled(s, e) && (e.Suspend? || e.LeaveSuspend? || e.WakeUnlock?)
    ensures OnlyMoves(s, Perform(s, e), e.f)
  {
    if e.Suspend? {
      SuspendMoves(s, e);
    } else if e.LeaveSuspend? {
      LeaveSuspendMoves(s, e);
    } else {
      WakeUnlockMoves(s, e);
    }
  }

  lemma StepMovesOne(s: State, e: Event)
    requires Inv(s) && Enabled(s, e)
    requires !e.Link? && !e.CheckCell? && !e.Awake? && !(e.WakeNext? && Popping(s, e.f))
    ensures OnlyMoves(s, Perform(s, e), e.f)
  {
    if e.Start? {
      StartMoves(s, e);
    } else if e.Yield? {
      YieldMoves(s, e);
    } else if e.Resume? {
      ResumeMoves(s, e.f);
    } else if e.YieldSchedule? || e.Refuse? {
      ScheduleMoves(s, e);
    } else if e.Write? {
      WriteMoves(s, e);
    } else if e.Announce? || e.Relock? || e.WakeLock? {
      StepTakesLock(s, e);
    } else if e.Suspend? || e.LeaveSuspend? || e.WakeUnlock? {
      StepFreesLock(s, e);
    } else if e.Return? {
      ReturnUnlinked(s, e.f);
      ReturnMoves(s, e.f);
    } else if e.WakeNext? {
      WakeEmptyMoves(s, e.f);
    } else {
      CodeMoves(s, e);
    }
  }

  lemma RunsKeepInv(states: seq<State>, events: seq<Event>)
    requires Runs.IsRun(Init, Step, states, events)
    ensures forall i :: 0 <= i < |states| ==> Inv(states[i])
  {
    forall s | Init(s) ensures Inv(s) { InitHolds(s); }
    forall s, e, s' | Inv(s) && Step(s, e, s') ensures Inv(s') { StepKeepsInv(s, e, s'); }
    Runs.Invariance(Init, Step, Inv, states, events);
  }

  // ----- what the futexes promise, on every run

  /** A fiber is in one place only: being executed, suspended, in one queue once, in the executor once, or finished. */
  lemma OnePlace(states: seq<State>, events: seq<Event>, i: nat, f: Id)
    requires Runs.IsRun(Init, Step, states, events) && i < |states|
    ensures var s := states[i]; var pc := PcOf(s, f);
            && s.ready[f] <= 1
            && (f in s.ready ==> f in s.fibers && InExecutor(pc))
            && (forall x :: x in s.futexes ==> NoDup(s.futexes[x].queue))
            && (forall x :: x in s.futexes && f in s.futexes[x].queue ==> f in s.fibers && Queued(pc) && pc.x == x)
            && (Queued(pc) ==> pc.x in s.futexes && f in s.futexes[pc.x].queue)
            && (f in s.fibers && InExecutor(pc) ==> f in s.ready)
  {
    RunsKeepInv(states, events);
    var s := states[i];
    forall x | x in s.futexes ensures NoDup(s.futexes[x].queue) {
      assert QueueOk(s, x);
    }
  }

  /** Every suspension is followed by at most one Schedule, and a fiber that has had it is not suspended any more. */
  lemma ScheduledOncePerSuspension(states: seq<State>, events: seq<Event>, i: nat, f: Id)
    requires Runs.IsRun(Init, Step, states, events) && i < |states|
    ensures var s := states[i];
            var suspended, scheduled := CountAt(s.suspensions, f), CountAt(s.schedules, f);
            && scheduled <= suspended <= scheduled + 1
            && (suspended == scheduled + 1 <==> Dormant(PcOf(s, f)))
  {
    RunsKeepInv(states, events);
  }

  /** The awaiters an event reads or writes: its own, and the links of the whole queue to be safe. */
  ghost function Touched(s: State, e: Event): set<Id>
    requires Enabled(s, e)
  {
    var pc := PcOf(s, e.f);
    match e
    case Link(f) => {f} + (set g | g in FutexAt(s, pc.x).queue)
    case CheckCell(f) => {f} + (set g | g in FutexAt(s, pc.x).queue)
    case WakeNext(_) => set g | g in FutexAt(s, pc.x).queue
    case Awake(_) => {pc.node} + (set g | g in FutexAt(s, pc.x).queue)
    case Return(f) => {f} + (set g | g in FutexAt(s, pc.x).queue)
    case _ => {}
  }

  /** No event touches an awaiter whose fiber's stack frame is gone, and a handle is valid when it is scheduled. */
  lemma NoDanglingAccess(states: seq<State>, events: seq<Event>, i: nat)
    requires Runs.IsRun(Init, Step, states, events) && i < |events|
    ensures Enabled(states[i], events[i])
    ensures forall g :: g in Touched(states[i], events[i]) ==> g in states[i].awaiters
    ensures events[i].Awake? ==>
              var node := PcOf(states[i], events[i].f).node; node in states[i].awaiters && states[i].awaiters[node]
  {
    RunsKeepInv(states, events);
    var s, e := states[i], events[i];
    assert Step(s, e, states[i + 1]);
    var pc := PcOf(s, e.f);
    if OnFutex(pc) {
      assert PlaceOk(s, e.f) && QueueOk(s, pc.x);
      if pc.Awaking? {
        assert PlaceOk(s, pc.node);
      }
    }
  }

  /** An awaiter is destroyed unlinked, popped by nobody, and after its AwaitSuspend has left the lock. */
  lemma DestroyedWhenDone(states: seq<State>, events: seq<Event>, i: nat, f: Id)
    requires Runs.IsRun(Init, Step, states, events) && i < |events| && events[i] == Return(f)
    ensures var s := states[i];
            && (forall x :: x in s.futexes ==> f !in s.futexes[x].queue && s.futexes[x].lock != ByTail(f))
            && (forall g :: g in s.fibers && s.fibers[g].Awaking? ==> s.fibers[g].node != f)
            && f in s.awaiters && f !in states[i + 1].awaiters
  {
    RunsKeepInv(states, events);
    var s := states[i];
    assert Step(s, events[i], states[i + 1]);
    forall x | x in s.futexes ensures f !in s.futexes[x].queue && s.futexes[x].lock != ByTail(f) {
      assert QueueOk(s, x) && LockOk(s, x);
    }
    forall g | g in s.fibers && s.fibers[g].Awaking? ensures s.fibers[g].node != f {
      assert PlaceOk(s, g);
    }
  }

  /** A wake takes the waiter that was linked first, and moves nobody else. */
  lemma WakesOldest(states: seq<State>, events: seq<Event>, i: nat, f: Id)
    requires Runs.IsRun(Init, Step, states, events) && i < |events| && events[i] == WakeNext(f)
    requires PcOf(states[i], f).Waking? && FutexAt(states[i], PcOf(states[i], f).x).queue != []
    ensures var s, s' := states[i], states[i + 1];
            var x := s.fibers[f].x;
            var node := s.futexes[x].queue[0];
            && PcOf(s, node).Parked? && PcOf(s', node) == Popped(x, f)
            && (forall g :: g in s.fibers && g != node && s.fibers[g].Parked? && s.fibers[g].x == x ==>
                  s.fibers[node].stamp < s.fibers[g].stamp)
            && (forall g :: g != f && g != node ==> PcOf(s', g) == PcOf(s, g))
  {
    RunsKeepInv(states, events);
    var s := states[i];
    assert Step(s, events[i], states[i + 1]);
    PoppedWasParked(s, f);
    var x := s.fibers[f].x;
    assert QueueOk(s, x);
    forall g | g in s.fibers && g != s.futexes[x].queue[0] && s.fibers[g].Parked? && s.fibers[g].x == x
      ensures s.fibers[s.futexes[x].queue[0]].stamp < s.fibers[g].stamp
    {
      assert PlaceOk(s, g);
    }
  }

  /** When a wake finds the queue empty, nobody at all is parked there or on the way to being parked unchecked. */
  lemma EmptyMeansNobody(states: seq<State>, events: seq<Event>, i: nat, f: Id, g: Id)
    requires Runs.IsRun(Init, Step, states, events) && i < |events| && events[i] == WakeNext(f)
    requires PcOf(states[i], f).Waking? && FutexAt(states[i], PcOf(states[i], f).x).queue == []
    ensures Queued(PcOf(states[i], g)) ==> PcOf(states[i], g).x != PcOf(states[i], f).x
  {
    RunsKeepInv(states, events);
    if g in states[i].fibers {
      assert PlaceOk(states[i], g);
    }
  }

  lemma WakersPark(s: State, e: Event, f: Id)
    requires Enabled(s, e) && (e.WakeNext? || e.Awake?) && !PcOf(s, f).Parked?
    ensures !PcOf(Perform(s, e), f).Parked?
  {
  }

  lemma OnlyCheckParks(s: State, e: Event, f: Id)
    requires Enabled(s, e) && !PcOf(s, f).Parked? && PcOf(Perform(s, e), f).Parked?
    ensures e == CheckCell(f) && FutexAt(s, PcOf(s, f).x).cell == PcOf(s, f).expected
    ensures PcOf(Perform(s, e), f) == Parked(PcOf(s, f).x, PcOf(s, f).expected, PcOf(s, f).stamp)
  {
    if e.WakeNext? || e.Awake? {
      WakersPark(s, e, f);
    }
  }

  lemma LockedOut(s: State, x: Addr, f: Id, g: Id)
    requires Inv(s) && x in s.futexes && s.futexes[x].lock == ByTail(f) && g in s.fibers && HoldsLock(s.fibers[g])
    ensures s.fibers[g].x != x
  {
    assert PlaceOk(s, g);
  }

  /** A fiber is left parked only if the cell still had the expected value, with every waker locked out. */
  lemma ParkedSawExpected(states: seq<State>, events: seq<Event>, i: nat, f: Id)
    requires Runs.IsRun(Init, Step, states, events) && i < |events|
    requires !PcOf(states[i], f).Parked? && PcOf(states[i + 1], f).Parked?
    ensures var s := states[i]; var x := PcOf(states[i + 1], f).x;
            && x in s.futexes && s.futexes[x].cell == PcOf(states[i + 1], f).expected
            && s.futexes[x].lock == ByTail(f)
            && forall g :: g in s.fibers && HoldsLock(s.fibers[g]) ==> s.fibers[g].x != x
  {
    RunsKeepInv(states, events);
    var s := states[i];
    var x := PcOf(states[i + 1], f).x;
    assert Step(s, events[i], states[i + 1]);
    OnlyCheckParks(s, events[i], f);
    assert PlaceOk(s, f);
    forall g | g in s.fibers && HoldsLock(s.fibers[g]) ensures s.fibers[g].x != x {
      LockedOut(s, x, f, g);
    }
  }

  /** An event of a stretch under the spin lock, or the one that ends it. */
  predicate UnderLock(e: Event) {
    e.Suspend? || e.Return? || e.WakeNext? || e.Awake? || e.WakeUnlock? || e.CheckCell? || e.Refuse? || e.LeaveSuspend?
  }

  lemma HolderCanMove(s: State, x: Addr)
    requires Inv(s) && x in s.futexes && !s.futexes[x].lock.Free?
    ensures var f := s.futexes[x].lock.f;
            exists e: Event :: e.f == f && UnderLock(e) && Enabled(s, e)
  {
    assert LockOk(s, x);
    var f := s.futexes[x].lock.f;
    var pc := s.fibers[f];
    assert PlaceOk(s, f);
    assert pc.Announced? ==> Enabled(s, Suspend(f));
    assert pc.Returning? ==> Enabled(s, Return(f));
    assert pc.Waking? ==> Enabled(s, WakeNext(f));
    assert pc.Awaking? ==> Enabled(s, Awake(f));
    assert pc.Woke? ==> Enabled(s, WakeUnlock(f));
    assert pc.Linked? ==> Enabled(s, CheckCell(f));
    assert pc.Refused? ==> Enabled(s, Refuse(f));
    assert pc.Parked? || pc.Woken? || pc.Relocking? ==> Enabled(s, LeaveSuspend(f));
  }

  /** A spin lock is never abandoned: whoever holds it can take a step without waiting for anybody. */
  lemma LockIsReleased(states: seq<State>, events: seq<Event>, i: nat, x: Addr)
    requires Runs.IsRun(Init, Step, states, events) && i < |states|
    requires x in states[i].futexes && !states[i].futexes[x].lock.Free?
    ensures var s := states[i]; var f := s.futexes[x].lock.f;
            exists e: Event :: e.f == f && UnderLock(e) && Enabled(s, e)
  {
    RunsKeepInv(states, events);
    HolderCanMove(states[i], x);
  }
}
