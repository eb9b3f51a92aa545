/** Which tasks go where, over stretches of a run: both kinds of queue give out their tasks in the order in which these came
    in, the slot holds the newest, each grab takes the fair share, and every task is recorded as it ended. */
module WorkerPoolQueues {
  import opened Lists
  import opened GlobalTasks
  import opened WorkerPool
  import opened WorkerPoolProofs
  import opened WorkerPoolTheorems
  import opened WorkerPoolTurns
  import Histories
  import Runs

  // ----- the queue of one worker

  /** What comes into the queue of worker w: a task pushed there, the one that a newer task drives out of the slot, or all
      but the first of a batch. */
  ghost function ComesIn(w: Id): (State, Event, State) -> seq<Task> {
    (s: State, e: Event, s': State) =>
      if e.Spawn? && e.w == w && e.hint == UpToYou then [e.task]
      else if e.Spawn? && e.w == w && e.hint == Next && SlotAt(s, w).Some? then [SlotAt(s, w).value]
      else if e == PushMany(w) && PcAt(s, w).Fill? && PcAt(s, w).buffer != [] then PcAt(s, w).buffer[1..]
      else []
  }

  /** What goes out of it: the task that the worker runs next, or the batch that a thief has in hand. */
  ghost function GoesOut(w: Id): (State, Event, State) -> seq<Task> {
    (s: State, e: Event, s': State) =>
      if e == TryPop(w) && PcAt(s', w).Run? then [PcAt(s', w).task]
      else if e.GrabFromVictim? && PcAt(s, e.w).Take? && PcAt(s, e.w).victim == w && PcAt(s', e.w).Fill? then PcAt(s', e.w).buffer
      else []
  }

  ghost function LocalAt(s: State, w: Id): seq<Task> {
    if 0 <= w < |s.workers| then s.workers[w].local else []
  }

  lemma LoopQueue(s: State, e: Event, w: Id)
    requires Enabled(s, e) && StartsLoop(e) && e.w == w && !e.TryPop? && !e.PushMany?
    ensures LocalAt(Perform(s, e), w) == LocalAt(s, w)
  {
    if e.AwakeOne? {
      NotifyLeaves(s, e.woken, w);
    }
  }

  lemma PopQueue(s: State, w: Id)
    requires Enabled(s, TryPop(w))
    ensures LocalAt(s, w) == GoesOut(w)(s, TryPop(w), Perform(s, TryPop(w))) + LocalAt(Perform(s, TryPop(w)), w)
    ensures PcAt(Perform(s, TryPop(w)), w).Run? <==> LocalAt(s, w) != []
  {
    if LocalAt(s, w) != [] {
      assert LocalAt(s, w) == [LocalAt(s, w)[0]] + LocalAt(s, w)[1..];
    }
  }

  lemma BatchQueue(s: State, w: Id)
    requires Enabled(s, PushMany(w))
    ensures LocalAt(s, w) + ComesIn(w)(s, PushMany(w), Perform(s, PushMany(w))) == LocalAt(Perform(s, PushMany(w)), w)
  {
    var e := PushMany(w);
    assert PcAt(s, w).Fill? && PcAt(s, w).buffer != [];
    assert !e.Spawn?;
    assert ComesIn(w)(s, e, Perform(s, e)) == PcAt(s, w).buffer[1..];
    assert Perform(s, e).workers[w] == DoPushMany(s.workers[w]);
  }

  lemma StealQueue(s: State, e: Event, w: Id)
    requires Enabled(s, e) && StealsOrParks(e) && e.w == w
    ensures LocalAt(Perform(s, e), w) == LocalAt(s, w)
  {
  }

  lemma SpawnQueue(s: State, w: Id, task: Task, hint: Hint)
    requires CanSpawn(s, w, task, hint)
    ensures LocalAt(s, w) + ComesIn(w)(s, Spawn(w, task, hint), DoSpawn(s, w, task, hint)) == LocalAt(DoSpawn(s, w, task, hint), w)
  {
  }

  lemma SubmissionQueue(s: State, e: Event, w: Id)
    requires Enabled(s, e) && (e.ProhibitFromWorker? || e.Finish?) && e.w == w
    ensures LocalAt(Perform(s, e), w) == LocalAt(s, w)
  {
    if e.ProhibitFromWorker? {
      NotifyLeaves(Prohibit(s), e.woken, w);
    }
  }

  lemma StolenFront(s: State, v: Id, taken: nat, w: Id)
    requires CanTake(s, v, taken) && 0 <= w < |s.workers| && v != w
    ensures LocalAt(s, w) == GoesOut(w)(s, GrabFromVictim(v, taken), DoTake(s, v, taken)) + LocalAt(DoTake(s, v, taken), w)
  {
    var local := LocalAt(s, w);
    TakeLeaves(s, v, taken, w);
    if s.workers[v].pc.victim == w {
      assert local == local[..taken] + local[taken..];
    }
  }

  lemma OwnQueue(s: State, e: Event, w: Id)
    requires Enabled(s, e) && Own(e, w) && !e.TryPop? && !e.PushMany? && !e.Spawn?
    ensures LocalAt(Perform(s, e), w) == LocalAt(s, w)
    ensures ComesIn(w)(s, e, Perform(s, e)) == [] && GoesOut(w)(s, e, Perform(s, e)) == []
  {
    if StartsLoop(e) {
      LoopQueue(s, e, w);
    } else if StealsOrParks(e) {
      StealQueue(s, e, w);
    } else {
      SubmissionQueue(s, e, w);
    }
  }

  lemma OthersQueue(s: State, e: Event, w: Id)
    requires Enabled(s, e) && !Own(e, w) && 0 <= w < |s.workers|
    ensures ComesIn(w)(s, e, Perform(s, e)) == []
    ensures LocalAt(s, w) == GoesOut(w)(s, e, Perform(s, e)) + LocalAt(Perform(s, e), w)
  {
    OthersLeave(s, e, w);
    if e.GrabFromVictim? {
      StolenFront(s, e.w, e.taken, w);
    }
  }

  /** One step, seen from the queue of worker w. */
  lemma QueueStep(s: State, e: Event, s': State, w: Id)
    requires Step(s, e, s') && 0 <= w < |s.workers|
    ensures LocalAt(s, w) + ComesIn(w)(s, e, s') == GoesOut(w)(s, e, s') + LocalAt(s', w)
  {
    var local := LocalAt(s, w);
    assert local + [] == local && [] + LocalAt(s', w) == LocalAt(s', w);
    if !Own(e, w) {
      OthersQueue(s, e, w);
    } else if e.TryPop? {
      PopQueue(s, w);
    } else if e.PushMany? {
      BatchQueue(s, w);
    } else if e.Spawn? {
      SpawnQueue(s, w, e.task, e.hint);
    } else {
      OwnQueue(s, e, w);
    }
  }

  /** Over any stretch of any run, what the worker itself and all thieves together take from its queue is, in that order,
      what was in the queue and what came in. */
  lemma LocalQueueIsFifo(states: seq<State>, events: seq<Event>, i: nat, j: nat, w: Id)
    requires Runs.IsRun(Init, Step, states, events) && i <= j < |states| && 0 <= w < |states[0].workers|
    ensures LocalAt(states[i], w) + Histories.Gathered(ComesIn(w), states, events, i, j)
            == Histories.Gathered(GoesOut(w), states, events, i, j) + LocalAt(states[j], w)
  {
    forall k | i <= k < j
      ensures LocalAt(states[k], w) + ComesIn(w)(states[k], events[k], states[k + 1])
              == GoesOut(w)(states[k], events[k], states[k + 1]) + LocalAt(states[k + 1], w)
    {
      SizeAlong(states, events, 0, k);
      assert Step(states[k], events[k], states[k + 1]);
      QueueStep(states[k], events[k], states[k + 1], w);
    }
    Histories.FirstInFirstOut(ComesIn(w), GoesOut(w), s => LocalAt(s, w), states, events, i, j);
  }

  // ----- the global queue

  ghost function Submitted(s: State, e: Event, s': State): seq<Task> {
    if e.Submit? || (e.Spawn? && e.hint == Slow) then [e.task] else []
  }

  ghost function Grabbed(s: State, e: Event, s': State): seq<Task> {
    if (e.Grab? || e.GrabAgain?) && PcAt(s', e.w).Fill? then PcAt(s', e.w).buffer else []
  }

  lemma GrabFromFront(s: State, w: Id, from: Pc, otherwise: Pc)
    requires CanGrab(s, w, from) && !otherwise.Fill?
    ensures var s' := GrabShare(s, w, from, otherwise);
            s.queue == (if PcAt(s', w).Fill? then PcAt(s', w).buffer else []) + s'.queue
    ensures var s' := GrabShare(s, w, from, otherwise);
            if s.queue == [] then PcAt(s', w) == otherwise
            else PcAt(s', w).Fill? && FairShare(|PcAt(s', w).buffer|, LOCAL_CAPACITY / 2, |s.queue|, |s.workers|)
  {
    var k := QueueShare(s);
    assert s.queue == s.queue[..k] + s.queue[k..];
    ShareZero(LOCAL_CAPACITY / 2, |s.queue|, |s.workers|);
    ShareIsFair(LOCAL_CAPACITY / 2, |s.queue|, |s.workers|);
  }

  lemma LoopGlobal(s: State, e: Event)
    requires Enabled(s, e) && StartsLoop(e) && !e.Grab? && !e.GrabAgain?
    ensures Perform(s, e).queue == s.queue
  {
  }

  lemma StealGlobal(s: State, e: Event)
    requires Enabled(s, e) && StealsOrParks(e)
    ensures Perform(s, e).queue == s.queue
  {
  }

  lemma SpawnGlobal(s: State, w: Id, task: Task, hint: Hint)
    requires CanSpawn(s, w, task, hint)
    ensures DoSpawn(s, w, task, hint).queue == if hint == Slow then s.queue + [task] else s.queue
  {
  }

  lemma SubmissionGlobal(s: State, e: Event)
    requires Enabled(s, e) && !StartsLoop(e) && !StealsOrParks(e)
    ensures Perform(s, e).queue == s.queue + Submitted(s, e, Perform(s, e))
  {
    if e.Spawn? {
      SpawnGlobal(s, e.w, e.task, e.hint);
    }
  }

  lemma GlobalStep(s: State, e: Event, s': State)
    requires Step(s, e, s')
    ensures s.queue + Submitted(s, e, s') == Grabbed(s, e, s') + s'.queue
  {
    assert s.queue + [] == s.queue && [] + s'.queue == s'.queue;
    if e.Grab? {
      GrabFromFront(s, e.w, FirstGrab, Allow);
    } else if e.GrabAgain? {
      GrabFromFront(s, e.w, SecondGrab, StealTest);
    } else if StartsLoop(e) {
      LoopGlobal(s, e);
    } else if StealsOrParks(e) {
      StealGlobal(s, e);
    } else {
      SubmissionGlobal(s, e);
    }
  }

  ghost function QueueOf(s: State): seq<Task> {
    s.queue
  }

  /** The same for the global queue: what the workers grab is what was submitted, in that order. */
  lemma GlobalQueueIsFifo(states: seq<State>, events: seq<Event>, i: nat, j: nat)
    requires Runs.IsRun(Init, Step, states, events) && i <= j < |states|
    ensures states[i].queue + Histories.Gathered(Submitted, states, events, i, j)
            == Histories.Gathered(Grabbed, states, events, i, j) + states[j].queue
  {
    forall k | i <= k < j
      ensures QueueOf(states[k]) + Submitted(states[k], events[k], states[k + 1])
              == Grabbed(states[k], events[k], states[k + 1]) + QueueOf(states[k + 1])
    {
      assert Step(states[k], events[k], states[k + 1]);
      GlobalStep(states[k], events[k], states[k + 1]);
    }
    Histories.FirstInFirstOut(Submitted, Grabbed, QueueOf, states, events, i, j);
  }

  /** Both grabs of a worker take the fair share of what is queued, at most half a local queue, and come back empty-handed
      exactly if nothing is queued. */
  lemma GrabsAreFair(states: seq<State>, events: seq<Event>, j: nat, w: Id)
    requires Runs.IsRun(Init, Step, states, events) && j < |events| && (events[j] == Grab(w) || events[j] == GrabAgain(w))
    ensures if states[j].queue == [] then PcAt(states[j + 1], w) == (if events[j].Grab? then Allow else StealTest)
            else PcAt(states[j + 1], w).Fill?
                 && FairShare(|PcAt(states[j + 1], w).buffer|, 128, |states[j].queue|, |states[j].workers|)
  {
    assert Step(states[j], events[j], states[j + 1]);
    if events[j].Grab? {
      GrabFromFront(states[j], w, FirstGrab, Allow);
    } else {
      GrabFromFront(states[j], w, SecondGrab, StealTest);
    }
  }

  // ----- the slot holds the newest, a batch is run from its first task on

  ghost predicate SpawnsNext(e: Event, w: Id) {
    e.Spawn? && e.w == w && e.hint == Next
  }

  /** The slot of worker w, unless it has been emptied. */
  ghost predicate SlotHolds(s: State, w: Id, task: Task) {
    0 <= w < |s.workers| && s.workers[w].lifo == Some(task)
  }

  lemma LoopSlot(s: State, e: Event, w: Id)
    requires Enabled(s, e) && StartsLoop(e) && e.w == w && !e.TryLifo?
    ensures SlotAt(Perform(s, e), w) == SlotAt(s, w)
  {
    if e.AwakeOne? {
      NotifyLeaves(s, e.woken, w);
    }
  }

  lemma StealSlot(s: State, e: Event, w: Id)
    requires Enabled(s, e) && StealsOrParks(e) && e.w == w
    ensures SlotAt(Perform(s, e), w) == SlotAt(s, w)
  {
  }

  lemma SpawnSlot(s: State, w: Id, task: Task, hint: Hint)
    requires CanSpawn(s, w, task, hint)
    ensures SlotAt(DoSpawn(s, w, task, hint), w) == (if hint == Next then Some(task) else SlotAt(s, w))
  {
  }

  lemma SubmissionSlot(s: State, e: Event, w: Id)
    requires Enabled(s, e) && (e.ProhibitFromWorker? || e.Finish?) && e.w == w
    ensures SlotAt(Perform(s, e), w) == SlotAt(s, w)
  {
    if e.ProhibitFromWorker? {
      ProhibitSlot(s, w, e.woken);
    }
  }

  lemma ProhibitSlot(s: State, w: Id, woken: Option<Id>)
    requires CanProhibit(s, w, woken)
    ensures SlotAt(DoProhibit(s, w, woken), w) == SlotAt(s, w)
  {
    NotifyLeaves(Prohibit(s), woken, w);
  }

  lemma SlotKept(s: State, e: Event, w: Id, task: Task)
    requires SlotHolds(s, w, task) && Enabled(s, e) && !SpawnsNext(e, w) && e != TryLifo(w)
    ensures SlotHolds(Perform(s, e), w, task)
  {
    SameSize(s, e);
    if !Own(e, w) {
      OthersLeave(s, e, w);
    } else if e.Spawn? {
      SpawnSlot(s, w, e.task, e.hint);
    } else if StartsLoop(e) {
      LoopSlot(s, e, w);
    } else if StealsOrParks(e) {
      StealSlot(s, e, w);
    } else {
      SubmissionSlot(s, e, w);
    }
  }

  /** A task handed to Execute with the hint Next, at event i, is in its worker's slot until that worker looks there or the
      next such task comes; so a worker that takes the slot takes the newest of them. */
  lemma SlotHoldsNewest(states: seq<State>, events: seq<Event>, i: nat, j: nat, w: Id, task: Task)
    requires Runs.IsRun(Init, Step, states, events) && i < j < |states| && events[i] == Spawn(w, task, Next)
    requires forall k :: i < k < j ==> !SpawnsNext(events[k], w) && events[k] != TryLifo(w)
    ensures SlotAt(states[j], w) == Some(task)
  {
    RunsKeepInv(states, events);
    assert Step(states[i], events[i], states[i + 1]);
    SpawnSlot(states[i], w, task, Next);
    SpawnSize(states[i], w, task, Next);
    forall s, e, s' | SlotHolds(s, w, task) && Step(s, e, s') && !(SpawnsNext(e, w) || e == TryLifo(w))
      ensures SlotHolds(s', w, task)
    {
      SlotKept(s, e, w, task);
    }
    Histories.Lasts(Step, Inv, s => SlotHolds(s, w, task), e => SpawnsNext(e, w) || e == TryLifo(w), states, events, i + 1, j);
  }

  /** A worker that has grabbed or stolen a batch, by event i, runs its first task next, at event j. */
  lemma BatchFromItsFirst(states: seq<State>, events: seq<Event>, i: nat, j: nat, w: Id)
    requires Runs.IsRun(Init, Step, states, events) && i < j < |events| && 0 <= w < |states[i].workers|
    requires PcAt(states[i], w).Fill? && Own(events[j], w) && forall k :: i <= k < j ==> !Own(events[k], w)
    ensures PcAt(states[i], w).buffer != [] && PcAt(states[j + 1], w) == Run(PcAt(states[i], w).buffer[0])
    ensures ComesIn(w)(states[j], events[j], states[j + 1]) == PcAt(states[i], w).buffer[1..]
  {
    RunsKeepInv(states, events);
    BatchStays(states, events, i, j, w);
    assert Step(states[j], events[j], states[j + 1]);
    OnlyPushes(states[j], events[j], w);
    assert WorkerOk(states[i].workers[w]);
  }

  lemma {:induction false} BatchStays(states: seq<State>, events: seq<Event>, i: nat, j: nat, w: Id)
    requires Runs.IsRun(Init, Step, states, events) && i <= j < |states| && 0 <= w < |states[i].workers|
    requires PcAt(states[i], w).Fill? && forall k :: i <= k < j ==> !Own(events[k], w)
    ensures PcAt(states[j], w) == PcAt(states[i], w) && 0 <= w < |states[j].workers|
    decreases j - i
  {
    if i < j {
      assert Step(states[i], events[i], states[i + 1]);
      OthersLeave(states[i], events[i], w);
      BatchStays(states, events, i + 1, j, w);
    }
  }

  lemma OnlyPushes(s: State, e: Event, w: Id)
    requires Enabled(s, e) && Own(e, w) && PcAt(s, w).Fill?
    ensures e == PushMany(w) && PcAt(Perform(s, e), w) == Run(PcAt(s, w).buffer[0])
  {
  }

  // ----- every task is recorded as it ended

  /** The tasks that workers have finished with, those that threw or those that did not. */
  ghost function Ended(threw: bool): (State, Event, State) -> seq<Task> {
    (s: State, e: Event, s': State) =>
      if e.Finish? && e.threw == threw && PcAt(s, e.w).Run? then [PcAt(s, e.w).task] else []
  }

  lemma LoopRecords(s: State, e: Event)
    requires Enabled(s, e) && StartsLoop(e)
    ensures Perform(s, e).executed == s.executed && Perform(s, e).discarded == s.discarded
  {
  }

  lemma StealRecords(s: State, e: Event)
    requires Enabled(s, e) && StealsOrParks(e)
    ensures Perform(s, e).executed == s.executed && Perform(s, e).discarded == s.discarded
  {
  }

  lemma SpawnRecords(s: State, w: Id, task: Task, hint: Hint)
    requires CanSpawn(s, w, task, hint)
    ensures DoSpawn(s, w, task, hint).executed == s.executed && DoSpawn(s, w, task, hint).discarded == s.discarded
  {
  }

  lemma SubmissionRecords(s: State, e: Event)
    requires Enabled(s, e) && !StartsLoop(e) && !StealsOrParks(e) && !e.Finish?
    ensures Perform(s, e).executed == s.executed && Perform(s, e).discarded == s.discarded
  {
    if e.Spawn? {
      SpawnRecords(s, e.w, e.task, e.hint);
    }
  }

  lemma FinishRecords(s: State, w: Id, threw: bool)
    requires Running(s, w)
    ensures var s' := DoFinish(s, w, threw); var task := multiset{s.workers[w].pc.task};
            && s'.executed == (if threw then s.executed else s.executed + task)
            && s'.discarded == (if threw then s.discarded + task else s.discarded)
  {
  }

  lemma RecordStep(s: State, e: Event, s': State)
    requires Step(s, e, s')
    ensures s'.executed == s.executed + multiset(Ended(false)(s, e, s'))
    ensures s'.discarded == s.discarded + multiset(Ended(true)(s, e, s'))
  {
    if StartsLoop(e) {
      LoopRecords(s, e);
    } else if StealsOrParks(e) {
      StealRecords(s, e);
    } else if e.Finish? {
      FinishRecords(s, e.w, e.threw);
    } else {
      SubmissionRecords(s, e);
    }
  }

  /** In every state of every run: the executed tasks are those that were run to their end, the discarded ones those that
      threw. */
  lemma {:induction false} RecordedAsEnded(states: seq<State>, events: seq<Event>, j: nat)
    requires Runs.IsRun(Init, Step, states, events) && j < |states|
    ensures states[j].executed == multiset(Histories.Gathered(Ended(false), states, events, 0, j))
    ensures states[j].discarded == multiset(Histories.Gathered(Ended(true), states, events, 0, j))
    decreases j
  {
    if j > 0 {
      RecordedAsEnded(states, events, j - 1);
      assert Step(states[j - 1], events[j - 1], states[j - 1 + 1]);
      RecordStep(states[j - 1], events[j - 1], states[j]);
    }
  }
}
