/** What complete calls of ParkIfEqual, WakeOne and WakeAll do, from the call to the fiber's return to its own code. */
module FutexCalls {
  import opened Futexes
  import opened FutexProofs
  import Histories
  import Runs

  /** The fiber is inside a call during this whole stretch, and back in its own code at the end of it. */
  ghost predicate Inside(states: seq<State>, f: Id, first: nat, last: nat) {
    && first < last < |states| && PcOf(states[last], f).Running?
    && forall k :: first <= k < last ==> !PcOf(states[k], f).Running?
  }

  // ----- ParkIfEqual

  /** How ParkIfEqual moves a fiber on, whoever takes the step. */
  ghost predicate ParkStep(s: State, e: Event, f: Id, pc': Pc) {
    var pc := PcOf(s, f);
    match pc
    case Entering(x, expected) => pc' == pc || pc' == Announced(x, expected)
    case Announced(x, expected) => pc' == pc || pc' == Suspended(x, expected)
    case Suspended(x, expected) => pc' == pc || (pc'.Linked? && pc'.x == x && pc'.expected == expected)
    case Linked(x, expected, stamp) =>
      if e == CheckCell(f) then pc' == (if FutexAt(s, x).cell == expected then Parked(x, expected, stamp) else Refused(x))
      else pc' == pc
    case Refused(x) => pc' == pc || pc' == Woken(x)
    case Parked(x, _, _) => pc' == pc || (e.WakeNext? && pc' == Popped(x, e.f))
    case Popped(x, _) => pc' == pc || pc' == Woken(x)
    case Woken(x) => pc' == pc || pc' == Relocking(x)
    case Relocking(x) => pc' == pc || pc' == Returning(x)
    case Returning(_) => pc' == pc || pc' == Running
    case _ => true
  }

  lemma ParkStepOwn(s: State, e: Event, f: Id)
    requires Inv(s) && Enabled(s, e) && e.f == f && !e.WakeNext? && !e.Awake?
    ensures ParkStep(s, e, f, PcOf(Perform(s, e), f))
  {
  }

  lemma ParkStepWaker(s: State, e: Event, f: Id)
    requires Inv(s) && Enabled(s, e) && (e.WakeNext? || e.Awake?)
    ensures ParkStep(s, e, f, PcOf(Perform(s, e), f))
  {
    if e.WakeNext? && Popping(s, e.f) {
      PoppedWasParked(s, e.f);
    }
    assert PlaceOk(s, e.f);
  }

  lemma ParkStepOther(s: State, e: Event, f: Id)
    requires Enabled(s, e) && e.f != f && !e.WakeNext? && !e.Awake?
    ensures PcOf(Perform(s, e), f) == PcOf(s, f)
  {
  }

  lemma ParkSteps(s: State, e: Event, s': State, f: Id)
    requires Inv(s) && Step(s, e, s')
    ensures ParkStep(s, e, f, PcOf(s', f))
  {
    if e.WakeNext? || e.Awake? {
      ParkStepWaker(s, e, f);
    } else if e.f == f {
      ParkStepOwn(s, e, f);
    } else {
      ParkStepOther(s, e, f);
    }
  }

  predicate BeforeCheck(pc: Pc, x: Addr, expected: int) {
    (pc.Entering? || pc.Announced? || pc.Suspended? || pc.Linked?) && pc.x == x && pc.expected == expected
  }

  predicate PastWaiting(pc: Pc) {
    pc.Refused? || pc.Woken? || pc.Relocking? || pc.Returning?
  }

  lemma {:induction false} ReachesCheck(states: seq<State>, events: seq<Event>, i: nat, j: nat, f: Id, x: Addr, expected: int)
      returns (k: nat)
    requires Runs.IsRun(Init, Step, states, events) && Inside(states, f, i, j) && BeforeCheck(PcOf(states[i], f), x, expected)
    ensures i <= k < j && events[k] == CheckCell(f)
    ensures PcOf(states[k], f).Linked? && PcOf(states[k], f).x == x && PcOf(states[k], f).expected == expected
    decreases j - i
  {
    RunsKeepInv(states, events);
    assert Step(states[i], events[i], states[i + 1]);
    ParkSteps(states[i], events[i], states[i + 1], f);
    if events[i] == CheckCell(f) {
      k := i;
    } else {
      k := ReachesCheck(states, events, i + 1, j, f, x, expected);
    }
  }

  lemma {:induction false} IsPopped(states: seq<State>, events: seq<Event>, i: nat, j: nat, f: Id) returns (k: nat)
    requires Runs.IsRun(Init, Step, states, events) && Inside(states, f, i, j) && PcOf(states[i], f).Parked?
    ensures i <= k < j && events[k].WakeNext? && PcOf(states[k + 1], f) == Popped(PcOf(states[i], f).x, events[k].f)
    decreases j - i
  {
    RunsKeepInv(states, events);
    assert Step(states[i], events[i], states[i + 1]);
    ParkSteps(states[i], events[i], states[i + 1], f);
    if PcOf(states[i + 1], f) == PcOf(states[i], f) {
      k := IsPopped(states, events, i + 1, j, f);
    } else {
      k := i;
    }
  }

  lemma {:induction false} StaysPast(states: seq<State>, events: seq<Event>, i: nat, j: nat, f: Id, m: nat)
    requires Runs.IsRun(Init, Step, states, events) && Inside(states, f, i, j) && PastWaiting(PcOf(states[i], f))
    requires i <= m <= j
    ensures !PcOf(states[m], f).Parked? && !PcOf(states[m], f).Popped?
    decreases j - i
  {
    if i < m < j {
      RunsKeepInv(states, events);
      assert Step(states[i], events[i], states[i + 1]);
      ParkSteps(states[i], events[i], states[i + 1], f);
      StaysPast(states, events, i + 1, j, f, m);
    }
  }

  /** ParkIfEqual, from its call at event i to its return in state j. Under the spin lock, at event k, it looks at the cell
      once more. If the cell still has the expected value the fiber is left parked there and does not return before
      somebody has popped it, at event p; otherwise it returns by itself and is never parked. */
  lemma ParkIfEqualCall(states: seq<State>, events: seq<Event>, i: nat, j: nat, f: Id, x: Addr, expected: int)
      returns (k: nat, p: nat)
    requires Runs.IsRun(Init, Step, states, events) && i < |events| && events[i] == ParkIfEqual(f, x, expected)
    requires Histories.Returns((s: State) => PcOf(s, f).Running?, states, i, j)
    ensures i < k < j && events[k] == CheckCell(f)
    ensures FutexAt(states[k], x).cell == expected ==>
              && PcOf(states[k + 1], f).Parked? && PcOf(states[k + 1], f).x == x
              && k < p < j && events[p].WakeNext? && PcOf(states[p + 1], f) == Popped(x, events[p].f)
    ensures FutexAt(states[k], x).cell != expected ==>
              forall m :: k < m <= j ==> !PcOf(states[m], f).Parked? && !PcOf(states[m], f).Popped?
  {
    RunsKeepInv(states, events);
    assert Step(states[i], events[i], states[i + 1]);
    k := ReachesCheck(states, events, i + 1, j, f, x, expected);
    assert Step(states[k], events[k], states[k + 1]);
    ParkSteps(states[k], events[k], states[k + 1], f);
    p := k;
    if FutexAt(states[k], x).cell == expected {
      p := IsPopped(states, events, k + 1, j, f);
    } else {
      forall m | k < m <= j ensures !PcOf(states[m], f).Parked? && !PcOf(states[m], f).Popped? {
        StaysPast(states, events, k + 1, j, f, m);
      }
    }
  }

  // ----- WakeOne and WakeAll

  /** How a wake moves its fiber on. */
  ghost predicate WakeStep(s: State, e: Event, f: Id, pc': Pc) {
    var pc := PcOf(s, f);
    match pc
    case WakeEntering(x, all) => e != WakeNext(f) && (pc' == pc || pc' == Waking(x, all))
    case Waking(x, all) =>
      if e == WakeNext(f) then
        pc' == (if FutexAt(s, x).queue == [] then Woke(x) else Awaking(x, all, FutexAt(s, x).queue[0]))
      else pc' == pc
    case Awaking(x, all, _) => e != WakeNext(f) && (pc' == pc || pc' == (if all then Waking(x, true) else Woke(x)))
    case Woke(x) => e != WakeNext(f) && (pc' == pc || pc' == Running)
    case _ => true
  }

  lemma WakeStepOwn(s: State, e: Event, f: Id)
    requires Inv(s) && Enabled(s, e) && e.f == f && f in s.fibers
    ensures WakeStep(s, e, f, PcOf(Perform(s, e), f))
  {
    if e.WakeNext? && Popping(s, f) {
      PoppedWasParked(s, f);
    }
    assert PlaceOk(s, f);
  }

  lemma WakeStepOther(s: State, e: Event, f: Id)
    requires Inv(s) && Enabled(s, e) && e.f != f && (PcOf(s, f).WakeEntering? || PcOf(s, f).Waking? || PcOf(s, f).Awaking? || PcOf(s, f).Woke?)
    ensures PcOf(Perform(s, e), f) == PcOf(s, f)
  {
    if e.WakeNext? || e.Awake? {
      WakersLeaveIt(s, e, f);
    } else {
      ParkStepOther(s, e, f);
    }
  }

  /** A wake moves its own fiber and the one that it pops or schedules, and nobody else. */
  lemma WakersLeaveIt(s: State, e: Event, f: Id)
    requires Inv(s) && Enabled(s, e) && e.f != f && (e.WakeNext? || e.Awake?)
    requires !PcOf(s, f).Parked? && !PcOf(s, f).Popped?
    ensures PcOf(Perform(s, e), f) == PcOf(s, f) && CountAt(Perform(s, e).schedules, f) == CountAt(s.schedules, f)
  {
    if e.WakeNext? {
      if Popping(s, e.f) {
        PoppedWasParked(s, e.f);
      }
    } else {
      assert PlaceOk(s, e.f);
    }
  }

  lemma WakeSteps(s: State, e: Event, s': State, f: Id)
    requires Inv(s) && Step(s, e, s') && f in s.fibers
    ensures WakeStep(s, e, f, PcOf(s', f))
  {
    if e.f == f {
      WakeStepOwn(s, e, f);
    } else if PcOf(s, f).WakeEntering? || PcOf(s, f).Waking? || PcOf(s, f).Awaking? || PcOf(s, f).Woke? {
      WakeStepOther(s, e, f);
    }
  }

  /** The queue of futex x at this point of the run. */
  ghost function QueueAt(states: seq<State>, x: Addr, k: nat): seq<Id>
    requires k < |states|
  {
    FutexAt(states[k], x).queue
  }

  /** A look at the queue pops whoever has waited longest, if anybody waits. */
  lemma LookPops(states: seq<State>, events: seq<Event>, k: nat, f: Id, x: Addr)
    requires Runs.IsRun(Init, Step, states, events) && k < |events| && events[k] == WakeNext(f)
    requires PcOf(states[k], f).Waking? && PcOf(states[k], f).x == x && QueueAt(states, x, k) != []
    ensures PcOf(states[k], QueueAt(states, x, k)[0]).Parked? && PcOf(states[k + 1], QueueAt(states, x, k)[0]) == Popped(x, f)
    ensures QueueAt(states, x, k + 1) == QueueAt(states, x, k)[1..]
  {
    RunsKeepInv(states, events);
    assert Step(states[k], events[k], states[k + 1]);
    PoppedWasParked(states[k], f);
  }

  predicate LooksAgain(pc: Pc) {
    pc.WakeEntering? || pc.Waking? || (pc.Awaking? && pc.all)
  }

  lemma {:induction false} NoMoreLooks(states: seq<State>, events: seq<Event>, i: nat, j: nat, f: Id, m: nat)
    requires Runs.IsRun(Init, Step, states, events) && Inside(states, f, i, j) && i <= m < j
    requires PcOf(states[i], f).Woke? || (PcOf(states[i], f).Awaking? && !PcOf(states[i], f).all)
    ensures events[m] != WakeNext(f)
    decreases j - i
  {
    RunsKeepInv(states, events);
    assert Step(states[i], events[i], states[i + 1]);
    WakeSteps(states[i], events[i], states[i + 1], f);
    if i < m {
      NoMoreLooks(states, events, i + 1, j, f, m);
    }
  }

  lemma {:induction false} LooksFirst(states: seq<State>, events: seq<Event>, i: nat, j: nat, f: Id, x: Addr, all: bool)
      returns (k: nat)
    requires Runs.IsRun(Init, Step, states, events) && Inside(states, f, i, j)
    requires LooksAgain(PcOf(states[i], f)) && PcOf(states[i], f).x == x && PcOf(states[i], f).all == all
    ensures i <= k < j && events[k] == WakeNext(f) && forall m :: i <= m < k ==> events[m] != WakeNext(f)
    ensures PcOf(states[k], f) == Waking(x, all)
    decreases j - i
  {
    RunsKeepInv(states, events);
    assert Step(states[i], events[i], states[i + 1]);
    WakeSteps(states[i], events[i], states[i + 1], f);
    if events[i] == WakeNext(f) {
      k := i;
    } else {
      k := LooksFirst(states, events, i + 1, j, f, x, all);
    }
  }

  /** WakeOne, from its call at event i to its return in state j: it looks at the queue once, at event k, and if anybody
      waits then it pops the one who has waited longest, and nobody else. */
  lemma WakeOneCall(states: seq<State>, events: seq<Event>, i: nat, j: nat, f: Id, x: Addr) returns (k: nat)
    requires Runs.IsRun(Init, Step, states, events) && i < |events| && events[i] == Wake(f, x, false)
    requires Histories.Returns((s: State) => PcOf(s, f).Running?, states, i, j)
    ensures i < k < j && events[k] == WakeNext(f) && forall m :: i < m < j && m != k ==> events[m] != WakeNext(f)
    ensures QueueAt(states, x, k) != [] ==> PcOf(states[k + 1], QueueAt(states, x, k)[0]) == Popped(x, f)
    ensures QueueAt(states, x, k) == [] ==> QueueAt(states, x, k + 1) == []
  {
    RunsKeepInv(states, events);
    assert Step(states[i], events[i], states[i + 1]);
    k := LooksFirst(states, events, i + 1, j, f, x, false);
    assert Step(states[k], events[k], states[k + 1]);
    WakeSteps(states[k], events[k], states[k + 1], f);
    if QueueAt(states, x, k) != [] {
      LookPops(states, events, k, f, x);
    }
    forall m | k < m < j ensures events[m] != WakeNext(f) {
      NoMoreLooks(states, events, k + 1, j, f, m);
    }
  }

  lemma {:induction false} LooksUntilEmpty(states: seq<State>, events: seq<Event>, i: nat, j: nat, f: Id, x: Addr)
      returns (k: nat)
    requires Runs.IsRun(Init, Step, states, events) && Inside(states, f, i, j)
    requires LooksAgain(PcOf(states[i], f)) && PcOf(states[i], f).x == x && PcOf(states[i], f).all
    ensures i <= k < j && events[k] == WakeNext(f) && QueueAt(states, x, k) == []
    ensures forall m :: k < m < j ==> events[m] != WakeNext(f)
    ensures forall m :: i <= m < k && events[m] == WakeNext(f) ==> PopsHead(states, x, m, f)
    decreases j - i
  {
    RunsKeepInv(states, events);
    var first := LooksFirst(states, events, i, j, f, x, true);
    assert Step(states[first], events[first], states[first + 1]);
    WakeSteps(states[first], events[first], states[first + 1], f);
    if QueueAt(states, x, first) == [] {
      k := first;
      forall m | k < m < j ensures events[m] != WakeNext(f) {
        NoMoreLooks(states, events, k + 1, j, f, m);
      }
    } else {
      LookPops(states, events, first, f, x);
      k := LooksUntilEmpty(states, events, first + 1, j, f, x);
    }
  }

  /** Step m of the run pops the head of the queue of x. */
  ghost predicate PopsHead(states: seq<State>, x: Addr, m: nat, f: Id) {
    m + 1 < |states| && QueueAt(states, x, m) != [] && PcOf(states[m + 1], QueueAt(states, x, m)[0]) == Popped(x, f)
  }

  /** WakeAll, from its call at event i to its return in state j: it pops one waiter after the other, the longest waiting
      first, until at event k it finds nobody. */
  lemma WakeAllCall(states: seq<State>, events: seq<Event>, i: nat, j: nat, f: Id, x: Addr) returns (k: nat)
    requires Runs.IsRun(Init, Step, states, events) && i < |events| && events[i] == Wake(f, x, true)
    requires Histories.Returns((s: State) => PcOf(s, f).Running?, states, i, j)
    ensures i < k < j && events[k] == WakeNext(f) && QueueAt(states, x, k) == []
    ensures forall m :: k < m < j ==> events[m] != WakeNext(f)
    ensures forall m :: i < m < k && events[m] == WakeNext(f) ==> PopsHead(states, x, m, f)
  {
    RunsKeepInv(states, events);
    assert Step(states[i], events[i], states[i + 1]);
    k := LooksUntilEmpty(states, events, i + 1, j, f, x);
  }

  // ----- Go and Yield

  /** Not running since the executor was given it for the last time, or about to be given to it. */
  ghost predicate GoingThrough(s: State, f: Id, schedules: int) {
    || (PcOf(s, f).Yielding? && CountAt(s.schedules, f) == schedules)
    || (PcOf(s, f).ReadyToRun? && CountAt(s.schedules, f) == schedules + 1)
  }

  ghost predicate GoneThrough(s: State, f: Id, schedules: int) {
    PcOf(s, f).Running? && CountAt(s.schedules, f) == schedules + 1
  }

  lemma ThroughOwn(s: State, e: Event, f: Id, schedules: int)
    requires Enabled(s, e) && GoingThrough(s, f, schedules) && e.f == f
    ensures GoingThrough(Perform(s, e), f, schedules) || (GoneThrough(Perform(s, e), f, schedules) && e == Resume(f))
  {
  }

  lemma OthersScheduleOthers(s: State, e: Event, f: Id)
    requires Enabled(s, e) && e.f != f && !e.WakeNext? && !e.Awake?
    ensures CountAt(Perform(s, e).schedules, f) == CountAt(s.schedules, f)
  {
  }

  lemma ThroughStep(s: State, e: Event, f: Id, schedules: int)
    requires Inv(s) && Enabled(s, e) && GoingThrough(s, f, schedules)
    ensures GoingThrough(Perform(s, e), f, schedules) || (GoneThrough(Perform(s, e), f, schedules) && e == Resume(f))
  {
    if e.f == f {
      ThroughOwn(s, e, f, schedules);
    } else if e.WakeNext? || e.Awake? {
      WakersLeaveIt(s, e, f);
    } else {
      ParkStepOther(s, e, f);
      OthersScheduleOthers(s, e, f);
    }
  }

  /** A fiber that is started or yields, at event i, runs again only when the executor resumes it, having been given it
      exactly once. */
  lemma RunsThroughExecutor(states: seq<State>, events: seq<Event>, i: nat, j: nat, f: Id)
    requires Runs.IsRun(Init, Step, states, events) && i < |events| && (events[i] == Start(f) || events[i] == Yield(f))
    requires Histories.Returns((s: State) => PcOf(s, f).Running?, states, i, j)
    ensures events[j - 1] == Resume(f) && CountAt(states[j].schedules, f) == CountAt(states[i].schedules, f) + 1
  {
    RunsKeepInv(states, events);
    assert Step(states[i], events[i], states[i + 1]);
    var n := CountAt(states[i].schedules, f);
    forall s, e, s' | Inv(s) && GoingThrough(s, f, n) && Step(s, e, s') ensures GoingThrough(s', f, n) || GoneThrough(s', f, n) {
      ThroughStep(s, e, f, n);
    }
    Histories.Ends(Step, Inv, s => PcOf(s, f).Running?, s => GoingThrough(s, f, n), s => GoneThrough(s, f, n),
                   states, events, i, j);
    assert Step(states[j - 1], events[j - 1], states[j - 1 + 1]);
    ThroughStep(states[j - 1], events[j - 1], f, n);
  }

  // ----- the cells

  ghost predicate WritesTo(e: Event, x: Addr) {
    e.Write? && e.x == x
  }

  lemma CellStays(s: State, e: Event, x: Addr)
    requires Enabled(s, e) && !WritesTo(e, x)
    ensures FutexAt(Perform(s, e), x).cell == FutexAt(s, x).cell
  {
  }

  ghost predicate CellIs(s: State, x: Addr, value: int) {
    FutexAt(s, x).cell == value
  }

  /** A cell holds what was written to it last. */
  lemma CellHoldsLastWrite(states: seq<State>, events: seq<Event>, i: nat, j: nat, f: Id, x: Addr, value: int)
    requires Runs.IsRun(Init, Step, states, events) && i < j < |states| && events[i] == Write(f, x, value)
    requires forall k :: i < k < j ==> !WritesTo(events[k], x)
    ensures FutexAt(states[j], x).cell == value
  {
    RunsKeepInv(states, events);
    assert Step(states[i], events[i], states[i + 1]);
    forall s, e, s' | CellIs(s, x, value) && Step(s, e, s') && !WritesTo(e, x) ensures CellIs(s', x, value) {
      CellStays(s, e, x);
    }
    Histories.Lasts(Step, Inv, s => CellIs(s, x, value), e => WritesTo(e, x), states, events, i + 1, j);
  }

  // ----- nobody is stuck

  /** Waiting for the spin lock of futex x. */
  predicate WaitsForLock(pc: Pc, x: Addr) {
    (pc.Entering? || pc.Suspended? || pc.Relocking? || pc.WakeEntering?) && pc.x == x
  }

  /** In every state of every run, a fiber that is neither parked nor finished can be moved on: by its own next step, by
      the waker that has popped it, or once a spin lock is free whose owner can move. */
  lemma NobodyStuck(states: seq<State>, events: seq<Event>, i: nat, f: Id)
    requires Runs.IsRun(Init, Step, states, events) && i < |states|
    requires f in states[i].fibers && !states[i].fibers[f].Parked? && !states[i].fibers[f].Finished?
    ensures var s := states[i]; var pc := s.fibers[f];
            || (exists e :: Enabled(s, e) && PcOf(Perform(s, e), f) != pc)
            || (exists x :: WaitsForLock(pc, x) && x in s.futexes && !s.futexes[x].lock.Free?)
  {
    RunsKeepInv(states, events);
    var s := states[i];
    var pc := s.fibers[f];
    assert PlaceOk(s, f) && FiberOk(s, f);
    if WaitsForLockAnywhere(pc) && !s.futexes[pc.x].lock.Free? {
      assert WaitsForLock(pc, pc.x);
    } else {
      var e := NextEvent(s, f);
      assert Enabled(s, e);
      assert PcOf(Perform(s, e), f) != pc;
    }
  }

  predicate WaitsForLockAnywhere(pc: Pc) {
    pc.Entering? || pc.Suspended? || pc.Relocking? || pc.WakeEntering?
  }

  function NextEvent(s: State, f: Id): Event {
    match PcOf(s, f)
    case Running => Yield(f)
    case Yielding => YieldSchedule(f)
    case ReadyToRun => Resume(f)
    case Entering(_, _) => Announce(f)
    case Announced(_, _) => Suspend(f)
    case Suspended(_, _) => Link(f)
    case Linked(_, _, _) => CheckCell(f)
    case Refused(_) => Refuse(f)
    case Popped(_, waker) => Awake(waker)
    case Woken(_) => Resume(f)
    case Relocking(_) => Relock(f)
    case Returning(_) => Return(f)
    case WakeEntering(_, _) => WakeLock(f)
    case Waking(_, _) => WakeNext(f)
    case Awaking(_, _, _) => Awake(f)
    case Woke(_) => WakeUnlock(f)
    case _ => Finish(f)
  }
}
