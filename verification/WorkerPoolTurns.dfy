/** What the turns of a worker amount to, over stretches of a run: which task is taken from where and in which order, when
    a worker nudges, steals, gives up and parks, and what an Execute leaves behind it. */
module WorkerPoolTurns {
  import opened Lists
  import opened Coordination
  import opened GlobalTasks
  import opened WorkerPool
  import opened WorkerPoolProofs
  import Histories
  import Runs

  ghost predicate IsOutside(e: Event) {
    e.Submit? || e.ProhibitFromOutside? || e.CallWaitIdle? || e.SeeQueueIdle? || e.SeeWorkersIdle?
  }

  /** A step taken by worker w itself. */
  ghost predicate Own(e: Event, w: Id) {
    !IsOutside(e) && e.w == w
  }

  // ----- what the others may do to a worker

  /** They may wake it, and they may take tasks from the front of its queue. */
  ghost predicate LeftAlone(r: WorkerState, r': WorkerState) {
    && r'.lifo == r.lifo && r'.lifoUsage == r.lifoUsage && r'.cycle == r.cycle
    && (r'.pc == r.pc || (r.pc.Asleep? && r'.pc.Notified?))
  }

  lemma GrabLeaves(s: State, v: Id, from: Pc, otherwise: Pc, w: Id)
    requires CanGrab(s, v, from) && 0 <= w < |s.workers| && v != w
    ensures |GrabShare(s, v, from, otherwise).workers| == |s.workers|
    ensures GrabShare(s, v, from, otherwise).workers[w] == s.workers[w]
  {
  }

  lemma NotifyLeaves(s: State, woken: Option<Id>, w: Id)
    requires CanNotify(s, woken) && 0 <= w < |s.workers|
    ensures |Notify(s, woken).workers| == |s.workers|
    ensures LeftAlone(s.workers[w], Notify(s, woken).workers[w]) && Notify(s, woken).workers[w].local == s.workers[w].local
  {
  }

  lemma TakeLeaves(s: State, v: Id, taken: nat, w: Id)
    requires CanTake(s, v, taken) && 0 <= w < |s.workers| && v != w
    ensures |DoTake(s, v, taken).workers| == |s.workers| && LeftAlone(s.workers[w], DoTake(s, v, taken).workers[w])
    ensures s.workers[v].pc.victim != w ==> DoTake(s, v, taken).workers[w] == s.workers[w]
    ensures s.workers[v].pc.victim == w ==> DoTake(s, v, taken).workers[w].local == s.workers[w].local[taken..]
  {
  }

  lemma SpawnLeaves(s: State, v: Id, task: Task, hint: Hint, w: Id)
    requires CanSpawn(s, v, task, hint) && 0 <= w < |s.workers| && v != w
    ensures |DoSpawn(s, v, task, hint).workers| == |s.workers| && DoSpawn(s, v, task, hint).workers[w] == s.workers[w]
  {
  }

  lemma LoopLeaves(s: State, e: Event, w: Id)
    requires Enabled(s, e) && StartsLoop(e) && 0 <= w < |s.workers| && e.w != w
    ensures |Perform(s, e).workers| == |s.workers| && LeftAlone(s.workers[w], Perform(s, e).workers[w])
    ensures Perform(s, e).workers[w].local == s.workers[w].local
  {
    if e.Grab? {
      GrabLeaves(s, e.w, FirstGrab, Allow, w);
    } else if e.GrabAgain? {
      GrabLeaves(s, e.w, SecondGrab, StealTest, w);
    } else if e.AwakeOne? {
      NotifyLeaves(s, e.woken, w);
    }
  }

  lemma StealLeaves(s: State, e: Event, w: Id)
    requires Enabled(s, e) && StealsOrParks(e) && !e.GrabFromVictim? && 0 <= w < |s.workers| && e.w != w
    ensures |Perform(s, e).workers| == |s.workers| && Perform(s, e).workers[w] == s.workers[w]
  {
  }

  lemma ProhibitLeaves(s: State, v: Id, woken: Option<Id>, w: Id)
    requires CanProhibit(s, v, woken) && 0 <= w < |s.workers| && v != w
    ensures var s' := DoProhibit(s, v, woken);
            && |s'.workers| == |s.workers| && LeftAlone(s.workers[w], s'.workers[w])
            && s'.workers[w].local == s.workers[w].local
  {
    NotifyLeaves(Prohibit(s), woken, w);
  }

  lemma SubmissionLeaves(s: State, e: Event, w: Id)
    requires Enabled(s, e) && !StartsLoop(e) && !StealsOrParks(e) && !Own(e, w) && 0 <= w < |s.workers|
    ensures |Perform(s, e).workers| == |s.workers| && LeftAlone(s.workers[w], Perform(s, e).workers[w])
    ensures Perform(s, e).workers[w].local == s.workers[w].local
  {
    if e.Spawn? {
      SpawnLeaves(s, e.w, e.task, e.hint, w);
    } else if e.ProhibitFromWorker? {
      ProhibitLeaves(s, e.w, e.woken, w);
    } else if e.ProhibitFromOutside? {
      NotifyLeaves(Prohibit(s), e.woken, w);
    }
  }

  lemma OthersLeave(s: State, e: Event, w: Id)
    requires Enabled(s, e) && !Own(e, w) && 0 <= w < |s.workers|
    ensures |Perform(s, e).workers| == |s.workers| && LeftAlone(s.workers[w], Perform(s, e).workers[w])
    ensures !e.GrabFromVictim? ==> Perform(s, e).workers[w].local == s.workers[w].local
  {
    if StartsLoop(e) {
      LoopLeaves(s, e, w);
    } else if e.GrabFromVictim? {
      TakeLeaves(s, e.w, e.taken, w);
    } else if StealsOrParks(e) {
      StealLeaves(s, e, w);
    } else {
      SubmissionLeaves(s, e, w);
    }
  }

  // ----- the slot: at most nineteen times in a row

  ghost function PcAt(s: State, w: Id): Pc {
    if 0 <= w < |s.workers| then s.workers[w].pc else Top
  }

  ghost function SlotAt(s: State, w: Id): Option<Task> {
    if 0 <= w < |s.workers| then s.workers[w].lifo else None
  }

  ghost function UsageAt(s: State, w: Id): nat {
    if 0 <= w < |s.workers| then s.workers[w].lifoUsage else 0
  }

  ghost function CycleAt(s: State, w: Id): nat {
    if 0 <= w < |s.workers| then s.workers[w].cycle else 0
  }

  /** Worker w runs the task in its slot next. */
  ghost function TakesSlot(w: Id): (State, Event, State) -> bool {
    (s: State, e: Event, s': State) => e == TryLifo(w) && PcAt(s', w).Run?
  }

  /** Only the worker itself counts its slot and its turns, and only in these two steps. */
  lemma LoopTallies(s: State, e: Event, w: Id)
    requires Enabled(s, e) && StartsLoop(e) && e.w == w
    ensures !e.TryLifo? ==> UsageAt(Perform(s, e), w) == UsageAt(s, w)
    ensures !e.Count? ==> CycleAt(Perform(s, e), w) == CycleAt(s, w)
  {
    if e.AwakeOne? {
      NotifyLeaves(s, e.woken, w);
    }
  }

  lemma StealTallies(s: State, e: Event, w: Id)
    requires Enabled(s, e) && StealsOrParks(e) && e.w == w
    ensures UsageAt(Perform(s, e), w) == UsageAt(s, w) && CycleAt(Perform(s, e), w) == CycleAt(s, w)
  {
  }

  lemma SpawnTallies(s: State, w: Id, task: Task, hint: Hint)
    requires CanSpawn(s, w, task, hint)
    ensures var s' := DoSpawn(s, w, task, hint); UsageAt(s', w) == UsageAt(s, w) && CycleAt(s', w) == CycleAt(s, w)
  {
  }

  lemma SubmissionTallies(s: State, e: Event, w: Id)
    requires Enabled(s, e) && !StartsLoop(e) && !StealsOrParks(e) && Own(e, w)
    ensures UsageAt(Perform(s, e), w) == UsageAt(s, w) && CycleAt(Perform(s, e), w) == CycleAt(s, w)
  {
    if e.Spawn? {
      SpawnTallies(s, w, e.task, e.hint);
    } else if e.ProhibitFromWorker? {
      NotifyLeaves(Prohibit(s), e.woken, w);
    }
  }

  lemma TalliesKept(s: State, e: Event, w: Id)
    requires Enabled(s, e) && 0 <= w < |s.workers|
    ensures e != TryLifo(w) ==> UsageAt(Perform(s, e), w) == UsageAt(s, w)
    ensures e != Count(w) ==> CycleAt(Perform(s, e), w) == CycleAt(s, w)
  {
    if !Own(e, w) {
      OthersLeave(s, e, w);
    } else if StartsLoop(e) {
      LoopTallies(s, e, w);
    } else if StealsOrParks(e) {
      StealTallies(s, e, w);
    } else {
      SubmissionTallies(s, e, w);
    }
  }

  /** Only an empty slot, or the nineteenth task from it in a row, sends a worker to its queue; only the tenth turn sends
      it to the nudge. */
  lemma LoopArrives(s: State, e: Event, w: Id)
    requires Enabled(s, e) && StartsLoop(e) && e.w == w
    ensures PcAt(Perform(s, e), w).PopLocal? ==> e.TryLifo? && UsageAt(Perform(s, e), w) == 0
    ensures PcAt(Perform(s, e), w).Nudge? ==> e.Count? && CycleAt(Perform(s, e), w) == 0
  {
  }

  lemma StealArrives(s: State, e: Event, w: Id)
    requires Enabled(s, e) && StealsOrParks(e) && e.w == w
    ensures !PcAt(Perform(s, e), w).PopLocal? && !PcAt(Perform(s, e), w).Nudge?
  {
  }

  lemma SubmissionArrives(s: State, e: Event, w: Id)
    requires Enabled(s, e) && !StartsLoop(e) && !StealsOrParks(e) && Own(e, w)
    ensures !PcAt(Perform(s, e), w).PopLocal? && !PcAt(Perform(s, e), w).Nudge?
  {
    if e.Spawn? {
      SpawnArrives(s, w, e.task, e.hint);
    }
  }

  lemma SpawnArrives(s: State, w: Id, task: Task, hint: Hint)
    requires CanSpawn(s, w, task, hint)
    ensures !PcAt(DoSpawn(s, w, task, hint), w).PopLocal? && !PcAt(DoSpawn(s, w, task, hint), w).Nudge?
  {
  }

  /** At these two points the counts have just been set back. */
  ghost predicate CountsFresh(s: State) {
    forall w :: 0 <= w < |s.workers| ==>
      && (s.workers[w].pc.PopLocal? ==> s.workers[w].lifoUsage == 0)
      && (s.workers[w].pc.Nudge? ==> s.workers[w].cycle == 0)
  }

  lemma FreshStep(s: State, e: Event, w: Id)
    requires CountsFresh(s) && Enabled(s, e) && 0 <= w < |s.workers| == |Perform(s, e).workers|
    ensures PcAt(Perform(s, e), w).PopLocal? ==> UsageAt(Perform(s, e), w) == 0
    ensures PcAt(Perform(s, e), w).Nudge? ==> CycleAt(Perform(s, e), w) == 0
  {
    if !Own(e, w) {
      OthersLeave(s, e, w);
    } else if StartsLoop(e) {
      LoopArrives(s, e, w);
    } else if StealsOrParks(e) {
      StealArrives(s, e, w);
    } else {
      SubmissionArrives(s, e, w);
    }
  }

  lemma GrabSize(s: State, w: Id, from: Pc, otherwise: Pc)
    requires CanGrab(s, w, from)
    ensures |GrabShare(s, w, from, otherwise).workers| == |s.workers|
  {
  }

  lemma LoopSize(s: State, e: Event)
    requires Enabled(s, e) && StartsLoop(e)
    ensures |Perform(s, e).workers| == |s.workers|
  {
    if e.Grab? {
      GrabSize(s, e.w, FirstGrab, Allow);
    } else if e.GrabAgain? {
      GrabSize(s, e.w, SecondGrab, StealTest);
    } else if e.AwakeOne? {
      NotifySize(s, e.woken);
    }
  }

  lemma TakeSize(s: State, w: Id, taken: nat)
    requires CanTake(s, w, taken)
    ensures |DoTake(s, w, taken).workers| == |s.workers|
  {
  }

  lemma ParkSize(s: State, w: Id)
    requires CanPark(s, w)
    ensures |DoPark(s, w).workers| == |s.workers|
  {
  }

  lemma StealSize(s: State, e: Event)
    requires Enabled(s, e) && StealsOrParks(e)
    ensures |Perform(s, e).workers| == |s.workers|
  {
    if e.GrabFromVictim? {
      TakeSize(s, e.w, e.taken);
    } else if e.TryParkMe? {
      ParkSize(s, e.w);
    }
  }

  lemma SpawnSize(s: State, w: Id, task: Task, hint: Hint)
    requires CanSpawn(s, w, task, hint)
    ensures |DoSpawn(s, w, task, hint).workers| == |s.workers|
  {
  }

  lemma NotifySize(s: State, woken: Option<Id>)
    requires CanNotify(s, woken)
    ensures |Notify(s, woken).workers| == |s.workers|
  {
  }

  lemma SubmissionSize(s: State, e: Event)
    requires Enabled(s, e) && !StartsLoop(e) && !StealsOrParks(e)
    ensures |Perform(s, e).workers| == |s.workers|
  {
    if e.Spawn? {
      SpawnSize(s, e.w, e.task, e.hint);
    } else if e.ProhibitFromWorker? || e.ProhibitFromOutside? {
      NotifySize(Prohibit(s), e.woken);
    }
  }

  lemma SameSize(s: State, e: Event)
    requires Enabled(s, e)
    ensures |Perform(s, e).workers| == |s.workers|
  {
    if StartsLoop(e) {
      LoopSize(s, e);
    } else if StealsOrParks(e) {
      StealSize(s, e);
    } else {
      SubmissionSize(s, e);
    }
  }

  ghost predicate FreshInv(s: State) {
    Inv(s) && CountsFresh(s)
  }

  lemma FreshStart(s: State)
    requires Init(s)
    ensures FreshInv(s)
  {
    InitHolds(s);
  }

  lemma FreshKept(s: State, e: Event, s': State)
    requires FreshInv(s) && Step(s, e, s')
    ensures FreshInv(s')
  {
    StepKeepsInv(s, e, s');
    SameSize(s, e);
    forall w | 0 <= w < |s'.workers|
      ensures s'.workers[w].pc.PopLocal? ==> s'.workers[w].lifoUsage == 0
      ensures s'.workers[w].pc.Nudge? ==> s'.workers[w].cycle == 0
    {
      FreshStep(s, e, w);
    }
  }

  lemma RunsKeepFresh(states: seq<State>, events: seq<Event>)
    requires Runs.IsRun(Init, Step, states, events)
    ensures forall i :: 0 <= i < |states| ==> Inv(states[i]) && CountsFresh(states[i])
  {
    forall s | Init(s) ensures FreshInv(s) { FreshStart(s); }
    forall s, e, s' | FreshInv(s) && Step(s, e, s') ensures FreshInv(s') { FreshKept(s, e, s'); }
    Runs.Invariance(Init, Step, FreshInv, states, events);
  }

  lemma {:induction false} SizeAlong(states: seq<State>, events: seq<Event>, i: nat, j: nat)
    requires Runs.IsRun(Init, Step, states, events) && i <= j < |states|
    ensures |states[j].workers| == |states[i].workers|
    decreases j - i
  {
    if i < j {
      assert Step(states[i], events[i], states[i + 1]);
      SameSize(states[i], events[i]);
      SizeAlong(states, events, i + 1, j);
    }
  }

  /** The worker has not been sent to its own queue during this stretch. */
  ghost predicate KeepsToSlot(states: seq<State>, w: Id, first: nat, last: nat)
    requires last < |states|
  {
    forall k :: first <= k <= last ==> !PcAt(states[k], w).PopLocal?
  }

  lemma SlotStep(s: State, e: Event, s': State, w: Id)
    requires Step(s, e, s') && 0 <= w < |s.workers| && !PcAt(s', w).PopLocal?
    ensures UsageAt(s', w) == UsageAt(s, w) + (if TakesSlot(w)(s, e, s') then 1 else 0)
  {
    TalliesKept(s, e, w);
  }

  lemma SlotCount(states: seq<State>, events: seq<Event>, i: nat, j: nat, w: Id)
    requires Runs.IsRun(Init, Step, states, events) && i <= j < |states| && 0 <= w < |states[0].workers|
    requires forall k :: i < k <= j ==> !PcAt(states[k], w).PopLocal?
    ensures UsageAt(states[j], w) == UsageAt(states[i], w) + Histories.Times(TakesSlot(w), states, events, i, j)
  {
    forall k | i <= k < j
      ensures UsageAt(states[k + 1], w)
              == UsageAt(states[k], w) + (if TakesSlot(w)(states[k], events[k], states[k + 1]) then 1 else 0)
    {
      SizeAlong(states, events, 0, k);
      assert Step(states[k], events[k], states[k + 1]);
      SlotStep(states[k], events[k], states[k + 1], w);
    }
    Histories.CountsTimes(TakesSlot(w), s => UsageAt(s, w), states, events, i, j);
  }

  /** A worker that is not sent to its own queue meanwhile takes the task in its slot at most nineteen times. */
  lemma AtMostNineteenInARow(states: seq<State>, events: seq<Event>, i: nat, j: nat, w: Id)
    requires Runs.IsRun(Init, Step, states, events) && i <= j < |states| && 0 <= w < |states[0].workers|
    requires KeepsToSlot(states, w, i, j)
    ensures Histories.Times(TakesSlot(w), states, events, i, j) <= 19
  {
    RunsKeepInv(states, events);
    SizeAlong(states, events, 0, j);
    SlotCount(states, events, i, j, w);
    assert WorkerOk(states[j].workers[w]);
  }

  /** The usage count is what it is called. */
  lemma UsageIsCount(states: seq<State>, events: seq<Event>, i: nat, j: nat, w: Id)
    requires Runs.IsRun(Init, Step, states, events) && i <= j < |states| && 0 <= w < |states[0].workers|
    requires i == 0 || PcAt(states[i], w).PopLocal?
    requires forall k :: i < k <= j ==> !PcAt(states[k], w).PopLocal?
    ensures UsageAt(states[j], w) == Histories.Times(TakesSlot(w), states, events, i, j)
  {
    RunsKeepFresh(states, events);
    SizeAlong(states, events, 0, i);
    SlotCount(states, events, i, j, w);
    assert i == 0 ==> states[i].workers[w] == WorkerState(Top, [], None, 0, 0);
  }

  lemma SlotDecides(s: State, w: Id)
    requires Enabled(s, TryLifo(w))
    ensures var s' := Perform(s, TryLifo(w));
            if SlotAt(s, w).Some? && UsageAt(s, w) < 19 then PcAt(s', w) == Run(SlotAt(s, w).value) && SlotAt(s', w) == None
            else PcAt(s', w) == PopLocal && SlotAt(s', w) == SlotAt(s, w)
  {
  }

  /** Where a worker stands at event j, with its counts last set back in state i: it takes a filled slot exactly if it
      has taken fewer than nineteen tasks from there since, and otherwise goes to its own queue. */
  lemma SlotTakenIff(states: seq<State>, events: seq<Event>, i: nat, j: nat, w: Id)
    requires Runs.IsRun(Init, Step, states, events) && i <= j < |events| && events[j] == TryLifo(w)
    requires i == 0 || PcAt(states[i], w).PopLocal?
    requires forall k :: i < k <= j ==> !PcAt(states[k], w).PopLocal?
    ensures var s, s' := states[j], states[j + 1];
            if SlotAt(s, w).Some? && Histories.Times(TakesSlot(w), states, events, i, j) < 19 then
              PcAt(s', w) == Run(SlotAt(s, w).value) && SlotAt(s', w) == None
            else PcAt(s', w) == PopLocal && SlotAt(s', w) == SlotAt(s, w)
  {
    assert Step(states[j], events[j], states[j + 1]);
    SizeAlong(states, events, 0, j);
    UsageIsCount(states, events, i, j, w);
    SlotDecides(states[j], w);
  }

  // ----- the nudge: exactly every tenth turn

  ghost function StartsTurn(w: Id): (State, Event, State) -> bool {
    (s: State, e: Event, s': State) => e == Count(w)
  }

  lemma TurnStep(s: State, e: Event, s': State, w: Id)
    requires Step(s, e, s') && 0 <= w < |s.workers| && !PcAt(s', w).Nudge?
    ensures CycleAt(s', w) == CycleAt(s, w) + (if StartsTurn(w)(s, e, s') then 1 else 0)
  {
    TalliesKept(s, e, w);
  }

  lemma TurnCount(states: seq<State>, events: seq<Event>, i: nat, j: nat, w: Id)
    requires Runs.IsRun(Init, Step, states, events) && i <= j < |states| && 0 <= w < |states[0].workers|
    requires forall k :: i < k <= j ==> !PcAt(states[k], w).Nudge?
    ensures CycleAt(states[j], w) == CycleAt(states[i], w) + Histories.Times(StartsTurn(w), states, events, i, j)
  {
    forall k | i <= k < j
      ensures CycleAt(states[k + 1], w)
              == CycleAt(states[k], w) + (if StartsTurn(w)(states[k], events[k], states[k + 1]) then 1 else 0)
    {
      SizeAlong(states, events, 0, k);
      assert Step(states[k], events[k], states[k + 1]);
      TurnStep(states[k], events[k], states[k + 1], w);
    }
    Histories.CountsTimes(StartsTurn(w), s => CycleAt(s, w), states, events, i, j);
  }

  /** A turn of worker w begins at event j, the last nudge having been in state i: it is sent to the nudge exactly if this
      is the tenth turn since. */
  lemma EveryTenthTurnNudges(states: seq<State>, events: seq<Event>, i: nat, j: nat, w: Id)
    requires Runs.IsRun(Init, Step, states, events) && i <= j < |events| && events[j] == Count(w)
    requires i == 0 || PcAt(states[i], w).Nudge?
    requires forall k :: i < k <= j ==> !PcAt(states[k], w).Nudge?
    ensures PcAt(states[j + 1], w)
            == (if Histories.Times(StartsTurn(w), states, events, i, j) == 9 then Nudge else TakeLifo)
    ensures Histories.Times(StartsTurn(w), states, events, i, j) <= 9
  {
    RunsKeepFresh(states, events);
    assert Step(states[j], events[j], states[j + 1]);
    SizeAlong(states, events, 0, i);
    SizeAlong(states, events, 0, j);
    TurnCount(states, events, i, j, w);
    assert i == 0 ==> states[i].workers[w] == WorkerState(Top, [], None, 0, 0);
    assert WorkerOk(states[j].workers[w]);
  }

  // ----- stealing: half the workers are tried, and everybody can be

  predicate IsStealing(pc: Pc) {
    pc.Steal? || pc.Measure? || pc.Take?
  }

  /** An attempt of worker w that brings nothing: it has drawn itself, or its victim had nothing. */
  ghost function Misses(w: Id): (State, Event, State) -> bool {
    (s: State, e: Event, s': State) => (e.AskVictim? || e.GrabFromVictim?) && e.w == w && PcAt(s', w).Steal?
  }

  lemma StealTries(s: State, e: Event, w: Id)
    requires Enabled(s, e) && StealsOrParks(e) && e.w == w && !e.TestImpudence? && IsStealing(PcAt(Perform(s, e), w))
    ensures IsStealing(PcAt(s, w))
    ensures PcAt(Perform(s, e), w).tries == PcAt(s, w).tries + (if Misses(w)(s, e, Perform(s, e)) then 1 else 0)
  {
  }

  lemma LoopNoTries(s: State, e: Event, w: Id)
    requires Enabled(s, e) && StartsLoop(e) && e.w == w
    ensures !IsStealing(PcAt(Perform(s, e), w))
  {
  }

  lemma SubmissionNoTries(s: State, e: Event, w: Id)
    requires Enabled(s, e) && !StartsLoop(e) && !StealsOrParks(e) && Own(e, w)
    ensures !IsStealing(PcAt(Perform(s, e), w))
  {
  }

  lemma TryStep(s: State, e: Event, s': State, w: Id)
    requires Step(s, e, s') && 0 <= w < |s.workers| && e != TestImpudence(w) && IsStealing(PcAt(s', w))
    ensures IsStealing(PcAt(s, w)) && PcAt(s', w).tries == PcAt(s, w).tries + (if Misses(w)(s, e, s') then 1 else 0)
  {
    if !Own(e, w) {
      OthersLeave(s, e, w);
    } else if StartsLoop(e) {
      LoopNoTries(s, e, w);
    } else if StealsOrParks(e) {
      StealTries(s, e, w);
    } else {
      SubmissionNoTries(s, e, w);
    }
  }

  lemma TestBegins(s: State, s': State, w: Id)
    requires Step(s, TestImpudence(w), s')
    ensures !Misses(w)(s, TestImpudence(w), s')
    ensures IsStealing(PcAt(s', w)) ==> PcAt(s', w).tries == 0
  {
  }

  /** The tries that worker w has made, if it is stealing. */
  ghost predicate HasTried(s: State, w: Id, tries: nat) {
    IsStealing(PcAt(s, w)) ==> PcAt(s, w).tries == tries
  }

  lemma TriedStep(s: State, e: Event, s': State, w: Id, tries: nat)
    requires Step(s, e, s') && 0 <= w < |s.workers| && e != TestImpudence(w) && HasTried(s, w, tries)
    ensures HasTried(s', w, tries + (if Misses(w)(s, e, s') then 1 else 0))
  {
    if IsStealing(PcAt(s', w)) {
      TryStep(s, e, s', w);
    }
  }

  lemma TriesAdvance(states: seq<State>, events: seq<Event>, k: nat, w: Id)
    requires Runs.IsRun(Init, Step, states, events) && k < |events| && 0 <= w < |states[k].workers|
    requires events[k] != TestImpudence(w)
    ensures Histories.Advances(Misses(w), (s: State, n: nat) => HasTried(s, w, n), states, events, k)
  {
    assert Step(states[k], events[k], states[k + 1]);
    var s, e, s' := states[k], events[k], states[k + 1];
    forall n: nat | HasTried(s, w, n) ensures HasTried(s', w, if Misses(w)(s, e, s') then n + 1 else n) {
      TriedStep(s, e, s', w, n);
    }
  }

  lemma TriesAreMisses(states: seq<State>, events: seq<Event>, i: nat, j: nat, w: Id)
    requires Runs.IsRun(Init, Step, states, events) && i < j < |states| && 0 <= w < |states[0].workers|
    requires events[i] == TestImpudence(w) && forall k :: i < k < j ==> events[k] != TestImpudence(w)
    ensures HasTried(states[j], w, Histories.Times(Misses(w), states, events, i + 1, j))
  {
    assert Step(states[i], events[i], states[i + 1]);
    TestBegins(states[i], states[i + 1], w);
    var tried := (s: State, n: nat) => HasTried(s, w, n);
    forall k | i + 1 <= k < j ensures Histories.Advances(Misses(w), tried, states, events, k) {
      SizeAlong(states, events, 0, k);
      TriesAdvance(states, events, k, w);
    }
    Histories.CountedAlong(Misses(w), tried, states, events, i + 1, j);
  }

  lemma HalfAreTried(s: State, w: Id, tries: nat)
    requires Inv(s) && 0 <= w < |s.workers| && s.workers[w].pc == Steal(tries)
    ensures Enabled(s, GiveUpStealing(w)) <==> tries >= (|s.workers| + 1) / 2
    ensures tries < (|s.workers| + 1) / 2 ==> CanAskVictim(s, w)
    ensures Enabled(s, GiveUpStealing(w)) ==> PcAt(Perform(s, GiveUpStealing(w)), w) == LifoAgain
  {
    assert Linked(s, w);
  }

  /** A worker that began to steal at event i gives up, at event j, after exactly (n + 1) / 2 attempts in vain, and before
      that it can always make another one. */
  lemma StealsInVain(states: seq<State>, events: seq<Event>, i: nat, j: nat, w: Id)
    requires Runs.IsRun(Init, Step, states, events) && i < j < |states| && 0 <= w < |states[0].workers|
    requires events[i] == TestImpudence(w) && forall k :: i < k < j ==> events[k] != TestImpudence(w)
    requires PcAt(states[j], w).Steal?
    ensures var misses, half := Histories.Times(Misses(w), states, events, i + 1, j), (|states[j].workers| + 1) / 2;
            && (Enabled(states[j], GiveUpStealing(w)) <==> misses >= half)
            && (misses < half ==> CanAskVictim(states[j], w))
    ensures j < |events| && events[j] == GiveUpStealing(w) ==> PcAt(states[j + 1], w) == LifoAgain
  {
    RunsKeepInv(states, events);
    SizeAlong(states, events, 0, j);
    TriesAreMisses(states, events, i, j, w);
    HalfAreTried(states[j], w, Histories.Times(Misses(w), states, events, i + 1, j));
    assert j < |events| ==> Step(states[j], events[j], states[j + 1]);
  }

  lemma DrawnBySeed(s: State, w: Id, v: Id, place: nat, seed: nat)
    requires Inv(s) && CanAskVictim(s, w) && place < |s.active| + |s.passive| && (s.active + s.passive)[place] == v
    ensures var pc := DoAskVictim(s, w, seed);
            && (seed % (|s.active| + |s.passive|) == place ==>
                  pc == (if v == w then Steal(s.workers[w].pc.tries + 1) else Measure(s.workers[w].pc.tries, v)))
            && (pc == Measure(s.workers[w].pc.tries, v) ==> seed % (|s.active| + |s.passive|) == place)
  {
    OnePlace(s.active + s.passive, place, seed % (|s.active| + |s.passive|));
  }

  /** Every worker in the lists can be drawn as a victim, by exactly the seeds of one residue; a worker that draws itself
      has tried in vain. */
  lemma EveryoneCanBeDrawn(s: State, w: Id, v: Id) returns (place: nat)
    requires Inv(s) && CanAskVictim(s, w) && Linked(s, v)
    ensures place < |s.active| + |s.passive|
    ensures forall seed: nat :: seed % (|s.active| + |s.passive|) == place ==>
              PcAt(Perform(s, AskVictim(w, seed)), w)
              == (if v == w then Steal(s.workers[w].pc.tries + 1) else Measure(s.workers[w].pc.tries, v))
    ensures forall seed: nat :: PcAt(Perform(s, AskVictim(w, seed)), w) == Measure(s.workers[w].pc.tries, v) ==>
              seed % (|s.active| + |s.passive|) == place
  {
    var line := s.active + s.passive;
    assert v in line;
    place :| place < |line| && line[place] == v;
    forall seed: nat
      ensures var pc := PcAt(Perform(s, AskVictim(w, seed)), w);
              && (seed % |line| == place ==>
                    pc == (if v == w then Steal(s.workers[w].pc.tries + 1) else Measure(s.workers[w].pc.tries, v)))
              && (pc == Measure(s.workers[w].pc.tries, v) ==> seed % |line| == place)
    {
      DrawnBySeed(s, w, v, place, seed);
    }
  }

  lemma OnePlace(line: seq<Id>, i: nat, j: nat)
    requires NoDup(line) && i < |line| && j < |line|
    ensures line[i] == line[j] <==> i == j
  {
  }
}
