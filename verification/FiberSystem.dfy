/** Fibers and futexes as one object with fields that its methods update in place: each method is one stretch of
    Fiber, FutexLike or FutexAwaiter code between two points where other threads may act. */
module FiberSystems {
  import opened Futexes
  import opened FutexProofs

  /** The node was parked on the waker's futex, and everybody else in the queue was linked after it. */
  ghost predicate OldestWasParked(s: State, f: Id, node: Id) {
    && node in s.fibers && s.fibers[node].Parked? && PcOf(s, f).Waking? && s.fibers[node].x == PcOf(s, f).x
    && forall g :: g in FutexAt(s, PcOf(s, f).x).queue && g != node ==>
          Queued(PcOf(s, g)) && PcOf(s, g).stamp > s.fibers[node].stamp
  }

  lemma OldestPopped(s: State, f: Id)
    requires Inv(s) && Popping(s, f)
    ensures OldestWasParked(s, f, FutexAt(s, PcOf(s, f).x).queue[0])
  {
    PoppedWasParked(s, f);
    assert QueueOk(s, PcOf(s, f).x);
  }

  /** A running fiber is in nobody's queue. */
  lemma Elsewhere(s: State, f: Id)
    requires Inv(s) && PcOf(s, f).Running?
    ensures forall x :: x in s.futexes ==> f !in s.futexes[x].queue
  {
    forall x | x in s.futexes ensures f !in s.futexes[x].queue {
      assert QueueOk(s, x);
    }
  }

  class FiberSystem {
    var futexes: map<Addr, Futex>
    var fibers: map<Id, Pc>
    var ready: multiset<Id>
    var awaiters: map<Id, bool>
    var clock: nat
    ghost var suspensions: map<Id, nat>
    ghost var schedules: map<Id, nat>

    ghost function View(): State
      reads this
    {
      State(futexes, fibers, ready, awaiters, clock, suspensions, schedules)
    }

    ghost predicate Valid()
      reads this
    {
      Inv(View())
    }

    constructor (cells: map<Addr, int>)
      ensures Valid() && Init(View()) && futexes.Keys == cells.Keys
      ensures forall x :: x in cells ==> futexes[x].cell == cells[x]
    {
      futexes := map x | x in cells :: Futex(cells[x], Free, []);
      fibers, ready, awaiters, clock := map[], multiset{}, map[], 0;
      suspensions, schedules := map[], map[];
      new;
      InitHolds(View());
    }

    // ----- fields of one futex

    method SetLock(x: Addr, lock: Lock)
      requires x in futexes
      modifies `futexes
      ensures futexes == old(futexes)[x := old(futexes)[x].(lock := lock)]
    {
      futexes := futexes[x := futexes[x].(lock := lock)];
    }

    method SetQueue(x: Addr, queue: seq<Id>)
      requires x in futexes
      modifies `futexes
      ensures futexes == old(futexes)[x := old(futexes)[x].(queue := queue)]
    {
      futexes := futexes[x := futexes[x].(queue := queue)];
    }

    /** Fiber::Schedule. */
    method HandToExecutor(f: Id)
      modifies `ready, `schedules
      ensures ready == old(ready) + multiset{f}
      ensures schedules == old(schedules)[f := CountAt(old(schedules), f) + 1]
    {
      ready := ready + multiset{f};
      schedules := schedules[f := CountAt(schedules, f) + 1];
    }

    /** IntrusiveList node Unlink: walk to the node, if it is there, and take it out. */
    method Unlink(x: Addr, f: Id)
      requires x in futexes
      modifies `futexes
      ensures futexes == old(futexes)[x := old(futexes)[x].(queue := Unlinked(old(futexes)[x].queue, f))]
    {
      var queue := futexes[x].queue;
      var i := 0;
      while i < |queue| && queue[i] != f
        invariant 0 <= i <= |queue|
        invariant Find(queue, f, 0) == Find(queue, f, i)
      {
        i := i + 1;
      }
      SetQueue(x, if i < |queue| then queue[..i] + queue[i + 1..] else queue);
    }

    // ----- fibers

    method Start(f: Id)
      requires Valid() && Enabled(View(), Event.Start(f))
      modifies this
      ensures Valid() && View() == Perform(old(View()), Event.Start(f))
    {
      fibers := fibers[f := ReadyToRun];
      suspensions := suspensions[f := CountAt(suspensions, f) + 1];
      HandToExecutor(f);
      StepKeepsInv(old(View()), Event.Start(f), View());
    }

    method Resume(f: Id)
      requires Valid() && Enabled(View(), Event.Resume(f))
      modifies this
      ensures Valid() && View() == Perform(old(View()), Event.Resume(f))
      ensures f !in ready
    {
      var pc := fibers[f];
      fibers := fibers[f := if pc.Woken? then Relocking(pc.x) else Running];
      ready := ready - multiset{f};
      StepKeepsInv(old(View()), Event.Resume(f), View());
    }

    method Yield(f: Id)
      requires Valid() && Enabled(View(), Event.Yield(f))
      modifies this
      ensures Valid() && View() == Perform(old(View()), Event.Yield(f))
    {
      fibers := fibers[f := Yielding];
      suspensions := suspensions[f := CountAt(suspensions, f) + 1];
      StepKeepsInv(old(View()), Event.Yield(f), View());
    }

    method YieldSchedule(f: Id)
      requires Valid() && Enabled(View(), Event.YieldSchedule(f))
      modifies this
      ensures Valid() && View() == Perform(old(View()), Event.YieldSchedule(f))
    {
      fibers := fibers[f := ReadyToRun];
      HandToExecutor(f);
      StepKeepsInv(old(View()), Event.YieldSchedule(f), View());
    }

    method Finish(f: Id)
      requires Valid() && Enabled(View(), Event.Finish(f))
      modifies this
      ensures Valid() && View() == Perform(old(View()), Event.Finish(f))
    {
      fibers := fibers[f := Finished];
      StepKeepsInv(old(View()), Event.Finish(f), View());
    }

    method Write(f: Id, x: Addr, value: int)
      requires Valid() && Enabled(View(), Event.Write(f, x, value))
      modifies this
      ensures Valid() && View() == Perform(old(View()), Event.Write(f, x, value))
    {
      futexes := futexes[x := futexes[x].(cell := value)];
      StepKeepsInv(old(View()), Event.Write(f, x, value), View());
    }

    // ----- ParkIfEqual and AwaitSuspend

    method ParkIfEqual(f: Id, x: Addr, expected: int)
      requires Valid() && Enabled(View(), Event.ParkIfEqual(f, x, expected))
      modifies this
      ensures Valid() && View() == Perform(old(View()), Event.ParkIfEqual(f, x, expected))
    {
      fibers := fibers[f := Entering(x, expected)];
      StepKeepsInv(old(View()), Event.ParkIfEqual(f, x, expected), View());
    }

    method Announce(f: Id)
      requires Valid() && Enabled(View(), Event.Announce(f))
      modifies this
      ensures Valid() && View() == Perform(old(View()), Event.Announce(f))
    {
      var pc := fibers[f];
      SetLock(pc.x, ByFiber(f));
      awaiters := awaiters[f := false];
      fibers := fibers[f := Announced(pc.x, pc.expected)];
      StepKeepsInv(old(View()), Event.Announce(f), View());
    }

    method Suspend(f: Id)
      requires Valid() && Enabled(View(), Event.Suspend(f))
      modifies this
      ensures Valid() && View() == Perform(old(View()), Event.Suspend(f))
    {
      var pc := fibers[f];
      assert PlaceOk(View(), f);
      SetLock(pc.x, Free);
      suspensions := suspensions[f := CountAt(suspensions, f) + 1];
      fibers := fibers[f := Suspended(pc.x, pc.expected)];
      StepKeepsInv(old(View()), Event.Suspend(f), View());
    }

    method Link(f: Id)
      requires Valid() && Enabled(View(), Event.Link(f))
      modifies this
      ensures Valid() && View() == Perform(old(View()), Event.Link(f))
    {
      var pc := fibers[f];
      SetLock(pc.x, ByTail(f));
      SetQueue(pc.x, futexes[pc.x].queue + [f]);
      awaiters := awaiters[f := true];
      fibers := fibers[f := Linked(pc.x, pc.expected, clock)];
      clock := clock + 1;
      StepKeepsInv(old(View()), Event.Link(f), View());
    }

    method CheckCell(f: Id) returns (parked: bool)
      requires Valid() && Enabled(View(), Event.CheckCell(f))
      modifies this
      ensures Valid() && View() == Perform(old(View()), Event.CheckCell(f))
      ensures f in fibers && (parked <==> fibers[f].Parked?)
    {
      var pc := fibers[f];
      assert PlaceOk(View(), f);
      parked := futexes[pc.x].cell == pc.expected;
      if parked {
        fibers := fibers[f := Parked(pc.x, pc.expected, pc.stamp)];
      } else {
        Unlink(pc.x, f);
        fibers := fibers[f := Refused(pc.x)];
      }
      StepKeepsInv(old(View()), Event.CheckCell(f), View());
    }

    method Refuse(f: Id)
      requires Valid() && Enabled(View(), Event.Refuse(f))
      modifies this
      ensures Valid() && View() == Perform(old(View()), Event.Refuse(f))
    {
      fibers := fibers[f := Woken(fibers[f].x)];
      HandToExecutor(f);
      StepKeepsInv(old(View()), Event.Refuse(f), View());
    }

    method LeaveSuspend(f: Id)
      requires Valid() && Enabled(View(), Event.LeaveSuspend(f))
      modifies this
      ensures Valid() && View() == Perform(old(View()), Event.LeaveSuspend(f))
    {
      assert PlaceOk(View(), f);
      SetLock(fibers[f].x, Free);
      StepKeepsInv(old(View()), Event.LeaveSuspend(f), View());
    }

    method Relock(f: Id)
      requires Valid() && Enabled(View(), Event.Relock(f))
      modifies this
      ensures Valid() && View() == Perform(old(View()), Event.Relock(f))
    {
      var x := fibers[f].x;
      SetLock(x, ByFiber(f));
      fibers := fibers[f := Returning(x)];
      StepKeepsInv(old(View()), Event.Relock(f), View());
    }

    /** The destructor of the awaiter, then that of the guard. */
    method Return(f: Id)
      requires Valid() && Enabled(View(), Event.Return(f))
      modifies this
      ensures Valid() && View() == Perform(old(View()), Event.Return(f))
      ensures forall x :: x in futexes ==> f !in futexes[x].queue
    {
      var x := fibers[f].x;
      assert PlaceOk(View(), f);
      ReturnUnlinked(View(), f);
      Unlink(x, f);
      SetLock(x, Free);
      awaiters := awaiters - {f};
      fibers := fibers[f := Running];
      StepKeepsInv(old(View()), Event.Return(f), View());
      Elsewhere(View(), f);
    }

    // ----- WakeOne and WakeAll

    method Wake(f: Id, x: Addr, all: bool)
      requires Valid() && Enabled(View(), Event.Wake(f, x, all))
      modifies this
      ensures Valid() && View() == Perform(old(View()), Event.Wake(f, x, all))
    {
      fibers := fibers[f := WakeEntering(x, all)];
      StepKeepsInv(old(View()), Event.Wake(f, x, all), View());
    }

    method WakeLock(f: Id)
      requires Valid() && Enabled(View(), Event.WakeLock(f))
      modifies this
      ensures Valid() && View() == Perform(old(View()), Event.WakeLock(f))
    {
      var pc := fibers[f];
      SetLock(pc.x, ByFiber(f));
      fibers := fibers[f := Waking(pc.x, pc.all)];
      StepKeepsInv(old(View()), Event.WakeLock(f), View());
    }

    /** Whoever is popped was parked here, and longer than anybody who still is. */
    method WakeNext(f: Id)
      requires Valid() && Enabled(View(), Event.WakeNext(f))
      modifies this
      ensures Valid() && View() == Perform(old(View()), Event.WakeNext(f))
      ensures f in fibers && (fibers[f].Awaking? ==> OldestWasParked(old(View()), f, fibers[f].node))
    {
      var pc := fibers[f];
      assert PlaceOk(View(), f);
      var queue := futexes[pc.x].queue;
      if queue == [] {
        fibers := fibers[f := Woke(pc.x)];
      } else {
        SetQueue(pc.x, queue[1..]);
        fibers := fibers[queue[0] := Popped(pc.x, f)];
        fibers := fibers[f := Awaking(pc.x, pc.all, queue[0])];
      }
      StepKeepsInv(old(View()), Event.WakeNext(f), View());
      if fibers[f].Awaking? {
        OldestPopped(old(View()), f);
      }
    }

    /** FutexAwaiter::Awake, and where its caller goes on. */
    method ScheduleNode(f: Id)
      requires f in fibers && fibers[f].Awaking?
      modifies this
      ensures View() == DoAwake(old(View()), f)
    {
      var pc := fibers[f];
      fibers := fibers[pc.node := Woken(pc.x)];
      fibers := fibers[f := if pc.all then Waking(pc.x, true) else Woke(pc.x)];
      HandToExecutor(pc.node);
      awaiters := awaiters[pc.node := false];
    }

    method Awake(f: Id)
      requires Valid() && Enabled(View(), Event.Awake(f))
      modifies this
      ensures Valid() && View() == Perform(old(View()), Event.Awake(f))
    {
      ScheduleNode(f);
      StepKeepsInv(old(View()), Event.Awake(f), View());
    }

    method WakeUnlock(f: Id)
      requires Valid() && Enabled(View(), Event.WakeUnlock(f))
      modifies this
      ensures Valid() && View() == Perform(old(View()), Event.WakeUnlock(f))
    {
      assert PlaceOk(View(), f);
      SetLock(fibers[f].x, Free);
      fibers := fibers[f := Running];
      StepKeepsInv(old(View()), Event.WakeUnlock(f), View());
    }

    /** Any one step, by name. */
    method Do(e: Event)
      requires Valid() && Enabled(View(), e)
      modifies this
      ensures Valid() && View() == Perform(old(View()), e)
    {
      if e.Wake? || e.WakeLock? || e.WakeNext? || e.Awake? || e.WakeUnlock? {
        DoWaking(e);
      } else if e.Start? || e.Resume? || e.Yield? || e.YieldSchedule? || e.Finish? || e.Write? {
        DoRunning(e);
      } else {
        DoParking(e);
      }
    }

    method DoRunning(e: Event)
      requires Valid() && Enabled(View(), e)
      requires e.Start? || e.Resume? || e.Yield? || e.YieldSchedule? || e.Finish? || e.Write?
      modifies this
      ensures Valid() && View() == Perform(old(View()), e)
    {
      match e
      case Start(f) => Start(f);
      case Resume(f) => Resume(f);
      case Yield(f) => Yield(f);
      case YieldSchedule(f) => YieldSchedule(f);
      case Finish(f) => Finish(f);
      case Write(f, x, value) => Write(f, x, value);
    }

    method DoParking(e: Event)
      requires Valid() && Enabled(View(), e)
      requires e.ParkIfEqual? || e.Announce? || e.Suspend? || e.Link? || e.CheckCell? || e.Refuse? || e.LeaveSuspend?
            || e.Relock? || e.Return?
      modifies this
      ensures Valid() && View() == Perform(old(View()), e)
    {
      match e
      case ParkIfEqual(f, x, expected) => ParkIfEqual(f, x, expected);
      case Announce(f) => Announce(f);
      case Suspend(f) => Suspend(f);
      case Link(f) => Link(f);
      case CheckCell(f) => var _ := CheckCell(f);
      case Refuse(f) => Refuse(f);
      case LeaveSuspend(f) => LeaveSuspend(f);
      case Relock(f) => Relock(f);
      case Return(f) => Return(f);
    }

    method DoWaking(e: Event)
      requires Valid() && Enabled(View(), e) && (e.Wake? || e.WakeLock? || e.WakeNext? || e.Awake? || e.WakeUnlock?)
      modifies this
      ensures Valid() && View() == Perform(old(View()), e)
    {
      match e
      case Wake(f, x, all) => Wake(f, x, all);
      case WakeLock(f) => WakeLock(f);
      case WakeNext(f) => WakeNext(f);
      case Awake(f) => Awake(f);
      case WakeUnlock(f) => WakeUnlock(f);
    }
  }
}
