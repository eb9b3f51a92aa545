/** Parking, waking and waiting over stretches of a run: who falls asleep, who is woken, what every Execute does before it
    returns, when WaitIdle can return, and that nobody who is awake is ever stuck. */
module WorkerPoolParking {
  import opened Lists
  import opened Coordination
  import opened GlobalTasks
  import opened WorkerPool
  import opened WorkerPoolProofs
  import opened WorkerPoolTheorems
  import opened WorkerPoolTurns
  import Histories
  import Runs

  // ----- a worker falls asleep exactly if the last word was that it may

  /** An AllowParking or a ProhibitParking, whoever calls it. */
  ghost predicate Decides(e: Event) {
    e.AllowParking? || e.ProhibitFromWorker? || e.ProhibitFromOutside?
  }

  lemma LoopPermission(s: State, e: Event)
    requires Enabled(s, e) && StartsLoop(e) && !e.AllowParking?
    ensures Perform(s, e).permission == s.permission
  {
  }

  lemma StealPermission(s: State, e: Event)
    requires Enabled(s, e) && StealsOrParks(e)
    ensures Perform(s, e).permission == s.permission
  {
  }

  lemma SubmissionPermission(s: State, e: Event)
    requires Enabled(s, e) && !StartsLoop(e) && !StealsOrParks(e) && !Decides(e)
    ensures Perform(s, e).permission == s.permission
  {
  }

  lemma PermissionKept(s: State, e: Event)
    requires Enabled(s, e) && !Decides(e)
    ensures Perform(s, e).permission == s.permission
  {
    if StartsLoop(e) {
      LoopPermission(s, e);
    } else if StealsOrParks(e) {
      StealPermission(s, e);
    } else {
      SubmissionPermission(s, e);
    }
  }

  lemma NotifyPermission(s: State, woken: Option<Id>)
    requires CanNotify(s, woken)
    ensures Notify(s, woken).permission == s.permission
  {
  }

  lemma DecisionTaken(s: State, e: Event)
    requires LocalInv(s) && Enabled(s, e) && Decides(e)
    ensures Perform(s, e).permission == (if e.AllowParking? then Allowed else TemporaryProhibited)
  {
    if e.ProhibitFromWorker? || e.ProhibitFromOutside? {
      NotifyPermission(Prohibit(s), e.woken);
    }
  }

  ghost predicate Permits(s: State, permission: Permission) {
    s.permission == permission
  }

  lemma PermissionAlong(states: seq<State>, events: seq<Event>, i: nat, j: nat)
    requires Runs.IsRun(Init, Step, states, events) && i <= j < |states|
    requires forall k :: i <= k < j ==> !Decides(events[k])
    ensures states[j].permission == states[i].permission
  {
    RunsKeepInv(states, events);
    var permission := states[i].permission;
    forall s, e, s' | Permits(s, permission) && Step(s, e, s') && !Decides(e) ensures Permits(s', permission) {
      PermissionKept(s, e);
    }
    Histories.Lasts(Step, Inv, s => Permits(s, permission), e => Decides(e), states, events, i, j);
  }

  lemma ParkDecides(s: State, w: Id)
    requires Inv(s) && Enabled(s, TryParkMe(w))
    ensures PcAt(Perform(s, TryParkMe(w)), w) == (if s.permission == Allowed then Asleep else Top)
  {
  }

  /** A worker that calls TryParkMe falls asleep exactly if the last AllowParking or ProhibitParking of anybody, at event
      i, was an AllowParking; otherwise it goes round again. */
  lemma ParksIffAllowed(states: seq<State>, events: seq<Event>, i: nat, j: nat, w: Id)
    requires Runs.IsRun(Init, Step, states, events) && i < j < |events| && events[j] == TryParkMe(w)
    requires Decides(events[i]) && forall k :: i < k < j ==> !Decides(events[k])
    ensures PcAt(states[j + 1], w) == (if events[i].AllowParking? then Asleep else Top)
  {
    RunsKeepInv(states, events);
    assert Step(states[i], events[i], states[i + 1]) && Step(states[j], events[j], states[j + 1]);
    DecisionTaken(states[i], events[i]);
    PermissionAlong(states, events, i + 1, j);
    ParkDecides(states[j], w);
  }

  /** Before anybody has said anything it may. */
  lemma ParksAtFirst(states: seq<State>, events: seq<Event>, j: nat, w: Id)
    requires Runs.IsRun(Init, Step, states, events) && j < |events| && events[j] == TryParkMe(w)
    requires forall k :: 0 <= k < j ==> !Decides(events[k])
    ensures PcAt(states[j + 1], w) == Asleep
  {
    RunsKeepInv(states, events);
    assert Step(states[j], events[j], states[j + 1]);
    PermissionAlong(states, events, 0, j);
    ParkDecides(states[j], w);
  }

  /** Looking at the slot for the last time, a worker goes on to park exactly if the slot is empty. */
  lemma ParksWithEmptySlot(states: seq<State>, events: seq<Event>, j: nat, w: Id)
    requires Runs.IsRun(Init, Step, states, events) && j < |events| && events[j] == RetestLifo(w)
    ensures PcAt(states[j + 1], w) == (if SlotAt(states[j], w) == None then Park else Top)
  {
    assert Step(states[j], events[j], states[j + 1]);
  }

  // ----- waking: one sleeper exactly, if there is any

  ghost predicate Sleeps(s: State, w: Id) {
    At(s, w, Asleep)
  }

  /** If anybody slept, one of them has been notified and the others sleep on. */
  ghost predicate WakesOne(s: State, s': State) {
    (exists w :: Sleeps(s, w)) ==>
      exists w :: Sleeps(s, w) && At(s', w, Notified) && forall v :: v != w && Sleeps(s, v) ==> Sleeps(s', v)
  }

  lemma NotifyWakesOne(s: State, woken: Option<Id>)
    requires CanNotify(s, woken)
    ensures WakesOne(s, Notify(s, woken))
  {
    if woken.Some? {
      assert Sleeps(s, woken.value) && At(Notify(s, woken), woken.value, Notified);
    }
  }

  lemma GoKeepsWoken(s: State, s': State, w: Id, pc: Pc)
    requires WakesOne(s, s') && 0 <= w < |s'.workers| && !Sleeps(s, w)
    ensures WakesOne(s, Go(s', w, pc))
  {
    if exists v :: Sleeps(s, v) {
      var v :| Sleeps(s, v) && At(s', v, Notified) && forall u :: u != v && Sleeps(s, u) ==> Sleeps(s', u);
      assert At(Go(s', w, pc), v, Notified);
      assert forall u :: u != v && Sleeps(s, u) ==> Sleeps(Go(s', w, pc), u);
    }
  }

  /** The nudge and every ProhibitParking wake one sleeper if anybody sleeps, and ProhibitParking withdraws permission. */
  lemma WakesASleeper(states: seq<State>, events: seq<Event>, j: nat)
    requires Runs.IsRun(Init, Step, states, events) && j < |events|
    requires events[j].AwakeOne? || events[j].ProhibitFromWorker? || events[j].ProhibitFromOutside?
    ensures WakesOne(states[j], states[j + 1])
    ensures !events[j].AwakeOne? ==> states[j + 1].permission == TemporaryProhibited
  {
    RunsKeepInv(states, events);
    var s, e := states[j], events[j];
    assert Step(states[j], events[j], states[j + 1]);
    if e.AwakeOne? {
      NudgeWakesOne(s, e.w, e.woken);
    } else {
      DecisionTaken(s, e);
      ProhibitWakesOne(s, e);
    }
  }

  lemma NudgeWakesOne(s: State, w: Id, woken: Option<Id>)
    requires CanNudge(s, w, woken)
    ensures WakesOne(s, DoNudge(s, w, woken))
  {
    NotifyWakesOne(s, woken);
    NotifySize(s, woken);
    GoKeepsWoken(s, Notify(s, woken), w, TakeLifo);
  }

  lemma ProhibitedSleep(s: State, s': State)
    requires WakesOne(Prohibit(s), s')
    ensures WakesOne(s, s')
  {
    assert forall w :: Sleeps(Prohibit(s), w) <==> Sleeps(s, w);
  }

  lemma ProhibitWakesOne(s: State, e: Event)
    requires Enabled(s, e) && (e.ProhibitFromWorker? || e.ProhibitFromOutside?)
    ensures WakesOne(s, Perform(s, e))
  {
    var p := Notify(Prohibit(s), e.woken);
    NotifyWakesOne(Prohibit(s), e.woken);
    NotifySize(Prohibit(s), e.woken);
    ProhibitedSleep(s, p);
    if e.ProhibitFromWorker? {
      GoKeepsWoken(s, p, e.w, Run(s.workers[e.w].pc.task));
    } else {
      SameSleepers(s, p, Perform(s, e));
    }
  }

  lemma SameSleepers(s: State, s': State, s'': State)
    requires WakesOne(s, s') && s''.workers == s'.workers
    ensures WakesOne(s, s'')
  {
    if exists v :: Sleeps(s, v) {
      var v :| Sleeps(s, v) && At(s', v, Notified) && forall u :: u != v && Sleeps(s, u) ==> Sleeps(s', u);
      assert At(s'', v, Notified);
      assert forall u :: u != v && Sleeps(s, u) ==> Sleeps(s'', u);
    }
  }

  /** A worker that comes back from its sleep is active: it may steal. */
  lemma ComesBackActive(states: seq<State>, events: seq<Event>, j: nat, w: Id)
    requires Runs.IsRun(Init, Step, states, events) && j < |events| && events[j] == Reenlist(w)
    ensures w in states[j + 1].active && 0 <= w < |states[j + 1].flags| && states[j + 1].flags[w] == Active
    ensures PcAt(states[j + 1], w) == Top
  {
    RunsKeepInv(states, events);
    assert Step(states[j], events[j], states[j + 1]);
    NewcomerIsActive(states[j].active, states[j].passive, w);
    assert Inv(states[j + 1]);
  }

  // ----- Execute returns only through ProhibitParking

  lemma StepStays(s: State, e: Event, w: Id)
    requires Enabled(s, e) && !Own(e, w) && 0 <= w < |s.workers| && PcAt(s, w) != Asleep
    ensures |Perform(s, e).workers| == |s.workers| && PcAt(Perform(s, e), w) == PcAt(s, w)
  {
    OthersLeave(s, e, w);
  }

  lemma StaysAt(states: seq<State>, events: seq<Event>, i: nat, j: nat, w: Id)
    requires Runs.IsRun(Init, Step, states, events) && i <= j < |states| && 0 <= w < |states[i].workers|
    requires PcAt(states[i], w) != Asleep && forall k :: i <= k < j ==> !Own(events[k], w)
    ensures PcAt(states[j], w) == PcAt(states[i], w) && |states[j].workers| == |states[i].workers|
    decreases j - i
  {
    if i < j {
      assert Step(states[i], events[i], states[i + 1]);
      StepStays(states[i], events[i], w);
      StaysAt(states, events, i + 1, j, w);
    }
  }

  lemma TakesUpTo(s: State, w: Id, size: nat, taken: nat)
    requires Inv(s) && 0 <= w < |s.workers| && PcAt(s, w).Take? && PcAt(s, w).limit == Min(size / 2, 256)
    ensures 0 <= PcAt(s, w).victim < |s.workers|
    ensures var there := |s.workers[PcAt(s, w).victim].local|;
            Enabled(s, GrabFromVictim(w, taken)) <==>
              taken <= size / 2 && taken <= 256 && taken <= there && (taken == 0 ==> size < 2 || there == 0)
  {
  }

  lemma SizeSetsLimit(s: State, w: Id, size: nat)
    requires Enabled(s, Event.LowSize(w, size))
    ensures 0 <= w < |s.workers| && PcAt(s, w).Measure?
    ensures var s' := Perform(s, Event.LowSize(w, size));
            |s'.workers| == |s.workers| && PcAt(s', w) == Take(PcAt(s, w).tries, PcAt(s, w).victim, Min(size / 2, 256))
  {
  }

  /** A thief that LowSize told this size, at event i, can take any number of tasks up to half of it from its victim, and
      comes back empty-handed only if that half is nothing or nothing is there. */
  lemma StealsUpToHalf(states: seq<State>, events: seq<Event>, i: nat, j: nat, w: Id, size: nat, taken: nat)
    requires Runs.IsRun(Init, Step, states, events) && i < j < |states| && events[i] == Event.LowSize(w, size)
    requires forall k :: i < k < j ==> !Own(events[k], w)
    ensures 0 <= w < |states[i].workers| && PcAt(states[i], w).Measure? && PcAt(states[j], w).Take?
    ensures PcAt(states[j], w).victim == PcAt(states[i], w).victim && 0 <= PcAt(states[i], w).victim < |states[j].workers|
    ensures var there := |states[j].workers[PcAt(states[i], w).victim].local|;
            Enabled(states[j], GrabFromVictim(w, taken)) <==>
              taken <= size / 2 && taken <= 256 && taken <= there && (taken == 0 ==> size < 2 || there == 0)
  {
    RunsKeepInv(states, events);
    assert Step(states[i], events[i], states[i + 1]);
    SizeSetsLimit(states[i], w, size);
    StaysAt(states, events, i + 1, j, w);
    TakesUpTo(states[j], w, size, taken);
  }

  lemma OnlyProhibits(s: State, e: Event, w: Id)
    requires Enabled(s, e) && Own(e, w) && PcAt(s, w).SlowPushed?
    ensures e.ProhibitFromWorker? && PcAt(Perform(s, e), w) == Run(PcAt(s, w).task)
  {
  }

  /** A task that calls Execute with the slow hint, at event i: its task is in the global queue at once, and the next thing
      that its worker does, at event j, is ProhibitParking, after which the calling task goes on. */
  lemma SlowExecuteProhibits(states: seq<State>, events: seq<Event>, i: nat, j: nat, w: Id, task: Task)
    requires Runs.IsRun(Init, Step, states, events) && i < j < |events| && events[i] == Spawn(w, task, Slow)
    requires Own(events[j], w) && forall k :: i < k < j ==> !Own(events[k], w)
    ensures states[i + 1].queue == states[i].queue + [task]
    ensures events[j].ProhibitFromWorker? && PcAt(states[j + 1], w) == PcAt(states[i], w)
  {
    assert Step(states[i], events[i], states[i + 1]) && Step(states[j], events[j], states[j + 1]);
    StaysAt(states, events, i + 1, j, w);
    OnlyProhibits(states[j], events[j], w);
  }

  /** A step taken by outside thread x. */
  ghost predicate OwnOutside(e: Event, x: Id) {
    IsOutside(e) && e.x == x
  }

  ghost predicate IsPushing(s: State, x: Id, task: Task) {
    OutsideAt(s, x, Pushed(task))
  }

  lemma PushingKept(s: State, e: Event, x: Id, task: Task)
    requires IsPushing(s, x, task) && Enabled(s, e) && !OwnOutside(e, x)
    ensures IsPushing(Perform(s, e), x, task)
  {
    if StartsLoop(e) {
      LoopOutside(s, e);
    } else if StealsOrParks(e) {
      StealOutside(s, e);
    }
  }

  lemma PushingAlong(states: seq<State>, events: seq<Event>, i: nat, j: nat, x: Id, task: Task)
    requires Runs.IsRun(Init, Step, states, events) && i <= j < |states| && IsPushing(states[i], x, task)
    requires forall k :: i <= k < j ==> !OwnOutside(events[k], x)
    ensures IsPushing(states[j], x, task)
  {
    RunsKeepInv(states, events);
    forall s, e, s' | IsPushing(s, x, task) && Step(s, e, s') && !OwnOutside(e, x) ensures IsPushing(s', x, task) {
      PushingKept(s, e, x, task);
    }
    Histories.Lasts(Step, Inv, s => IsPushing(s, x, task), e => OwnOutside(e, x), states, events, i, j);
  }

  lemma OnlyReturns(s: State, e: Event, x: Id, task: Task)
    requires Enabled(s, e) && OwnOutside(e, x) && IsPushing(s, x, task)
    ensures e.ProhibitFromOutside? && task in Perform(s, e).returned && OutsideAt(Perform(s, e), x, Free)
  {
  }

  /** The same for a thread outside the pool: Execute returns with ProhibitParking done and its task on record. */
  lemma OutsideExecuteProhibits(states: seq<State>, events: seq<Event>, i: nat, j: nat, x: Id, task: Task)
    requires Runs.IsRun(Init, Step, states, events) && i < j < |events| && events[i] == Submit(x, task)
    requires OwnOutside(events[j], x) && forall k :: i < k < j ==> !OwnOutside(events[k], x)
    ensures states[i + 1].queue == states[i].queue + [task]
    ensures events[j].ProhibitFromOutside? && task in states[j + 1].returned && OutsideAt(states[j + 1], x, Free)
  {
    assert Step(states[i], events[i], states[i + 1]) && Step(states[j], events[j], states[j + 1]);
    PushingAlong(states, events, i + 1, j, x, task);
    OnlyReturns(states[j], events[j], x, task);
  }

  // ----- nobody who is awake is stuck, and WaitIdle returns as soon as it may

  lemma SomeoneToNotify(s: State) returns (woken: Option<Id>)
    ensures CanNotify(s, woken)
  {
    if SomeoneAsleep(s) {
      var w :| 0 <= w < |s.workers| && s.workers[w].pc == Asleep;
      woken := Some(w);
    } else {
      woken := None;
    }
  }

  /** In every state of every run, a worker that is not asleep can take its next step. */
  lemma AwakeWorkerGetsOn(states: seq<State>, events: seq<Event>, i: nat, w: Id) returns (e: Event)
    requires Runs.IsRun(Init, Step, states, events) && i < |states|
    requires 0 <= w < |states[i].workers| && PcAt(states[i], w) != Asleep
    ensures Own(e, w) && Enabled(states[i], e)
  {
    RunsKeepInv(states, events);
    e := NextStep(states[i], w);
  }

  lemma NextStep(s: State, w: Id) returns (e: Event)
    requires Inv(s) && 0 <= w < |s.workers| && PcAt(s, w) != Asleep
    ensures Own(e, w) && Enabled(s, e)
  {
    var r := s.workers[w];
    assert WorkerOk(r) && (!Unlinked(r.pc) ==> Linked(s, w));
    if r.pc.Nudge? {
      var woken := SomeoneToNotify(s);
      e := Event.AwakeOne(w, woken);
    } else if r.pc.SlowPushed? {
      var woken := SomeoneToNotify(s);
      e := ProhibitFromWorker(w, woken);
    } else {
      e := QuietNext(s, w);
    }
  }

  lemma QuietNext(s: State, w: Id) returns (e: Event)
    requires Inv(s) && 0 <= w < |s.workers| && (!Unlinked(s.workers[w].pc) ==> Linked(s, w))
    requires s.workers[w].pc != Asleep && !s.workers[w].pc.Nudge? && !s.workers[w].pc.SlowPushed?
    ensures Own(e, w) && Enabled(s, e)
  {
    if IsStealing(s.workers[w].pc) {
      e := StealingNext(s, w);
    } else {
      e := match s.workers[w].pc
        case Top => Event.Count(w)
        case TakeLifo => TryLifo(w)
        case PopLocal => TryPop(w)
        case FirstGrab => Grab(w)
        case Allow => AllowParking(w)
        case SecondGrab => GrabAgain(w)
        case Fill(_) => PushMany(w)
        case StealTest => TestImpudence(w)
        case LifoAgain => RetestLifo(w)
        case Park => TryParkMe(w)
        case Notified => Reenlist(w)
        case _ => Finish(w, false);
      assert WorkerOk(s.workers[w]);
    }
  }

  lemma StealingNext(s: State, w: Id) returns (e: Event)
    requires Inv(s) && 0 <= w < |s.workers| && IsStealing(s.workers[w].pc) && Linked(s, w)
    ensures Own(e, w) && Enabled(s, e)
  {
    match s.workers[w].pc
    case Steal(tries) => e := if tries < (|s.workers| + 1) / 2 then AskVictim(w, 0) else GiveUpStealing(w);
    case Measure(_, _) => e := Event.LowSize(w, 0);
    case Take(_, victim, limit) => e := GrabFromVictim(w, if limit == 0 || s.workers[victim].local == [] then 0 else 1);
  }

  lemma NobodyLinked(s: State)
    requires ListsInv(s)
    ensures s.workersBusy == 0 <==> forall w :: 0 <= w < |s.workers| ==> Unlinked(s.workers[w].pc)
  {
    forall w | 0 <= w < |s.workers| ensures Linked(s, w) <==> !Unlinked(s.workers[w].pc) { }
    if s.active != [] {
      assert Linked(s, s.active[0]);
    } else if s.passive != [] {
      assert Linked(s, s.passive[0]);
    }
  }

  lemma QueueIdleIff(s: State, x: Id)
    requires LocalInv(s) && x in s.outside && s.outside[x].WaitQueue?
    ensures Enabled(s, SeeQueueIdle(x)) <==> s.queue == []
  {
  }

  lemma WorkersIdleIff(s: State, x: Id)
    requires ListsInv(s) && x in s.outside && s.outside[x].WaitWorkers?
    ensures Enabled(s, SeeWorkersIdle(x)) <==> forall w :: 0 <= w < |s.workers| ==> Unlinked(s.workers[w].pc)
  {
    NobodyLinked(s);
  }

  /** The first half of WaitIdle can return exactly when the global queue is empty, the second exactly when every worker is
      asleep, or woken and not back yet. */
  lemma WaitIdleReturnsIff(states: seq<State>, events: seq<Event>, i: nat, x: Id)
    requires Runs.IsRun(Init, Step, states, events) && i < |states| && x in states[i].outside
    ensures states[i].outside[x].WaitQueue? ==> (Enabled(states[i], SeeQueueIdle(x)) <==> states[i].queue == [])
    ensures states[i].outside[x].WaitWorkers? ==>
              (Enabled(states[i], SeeWorkersIdle(x))
               <==> forall w :: 0 <= w < |states[i].workers| ==> Unlinked(states[i].workers[w].pc))
  {
    RunsKeepInv(states, events);
    if states[i].outside[x].WaitQueue? {
      QueueIdleIff(states[i], x);
    } else if states[i].outside[x].WaitWorkers? {
      WorkersIdleIff(states[i], x);
    }
  }

  // ----- WaitIdle in terms of calls

  /** Task u is task t, or was handed to Execute, within the first n steps, by a task that descends from t. */
  ghost predicate Descends(states: seq<State>, events: seq<Event>, u: Task, t: Task, n: nat)
    requires |states| == |events| + 1 && n < |states|
    decreases n
  {
    u == t || exists k :: 0 <= k < n && SpawnedBy(states, events, u, k) && Descends(states, events, PcAt(states[k], events[k].w).task, t, k)
  }

  /** Step k hands task u to Execute inside a task. */
  ghost predicate SpawnedBy(states: seq<State>, events: seq<Event>, u: Task, k: nat)
    requires |states| == |events| + 1 && k < |events|
  {
    events[k].Spawn? && events[k].task == u && PcAt(states[k], events[k].w).Run?
  }

  lemma GrabRoots(s: State, w: Id, from: Pc, otherwise: Pc)
    requires CanGrab(s, w, from)
    ensures GrabShare(s, w, from, otherwise).root == s.root && GrabShare(s, w, from, otherwise).returned == s.returned
  {
  }

  lemma LoopRoots(s: State, e: Event)
    requires Enabled(s, e) && StartsLoop(e)
    ensures Perform(s, e).root == s.root && Perform(s, e).returned == s.returned
  {
    if e.Grab? {
      GrabRoots(s, e.w, FirstGrab, Allow);
    } else if e.GrabAgain? {
      GrabRoots(s, e.w, SecondGrab, StealTest);
    } else if e.AwakeOne? {
      NotifyRoots(s, e.woken);
    }
  }

  lemma TakeRoots(s: State, w: Id, taken: nat)
    requires CanTake(s, w, taken)
    ensures DoTake(s, w, taken).root == s.root && DoTake(s, w, taken).returned == s.returned
  {
  }

  lemma ParkRoots(s: State, w: Id)
    requires CanPark(s, w)
    ensures DoPark(s, w).root == s.root && DoPark(s, w).returned == s.returned
  {
  }

  lemma StealRoots(s: State, e: Event)
    requires Enabled(s, e) && StealsOrParks(e)
    ensures Perform(s, e).root == s.root && Perform(s, e).returned == s.returned
  {
    if e.GrabFromVictim? {
      TakeRoots(s, e.w, e.taken);
    } else if e.TryParkMe? {
      ParkRoots(s, e.w);
    }
  }

  lemma SpawnRoots(s: State, w: Id, task: Task, hint: Hint)
    requires CanSpawn(s, w, task, hint)
    ensures DoSpawn(s, w, task, hint).root == s.root[task := s.root[s.workers[w].pc.task]]
    ensures DoSpawn(s, w, task, hint).returned == s.returned
  {
  }

  lemma NotifyRoots(s: State, woken: Option<Id>)
    requires CanNotify(s, woken)
    ensures Notify(s, woken).root == s.root && Notify(s, woken).returned == s.returned
  {
  }

  lemma SubmissionRoots(s: State, e: Event)
    requires Enabled(s, e) && !StartsLoop(e) && !StealsOrParks(e) && !e.Spawn?
    ensures Perform(s, e).root == (if e.Submit? then s.root[e.task := e.task] else s.root)
    ensures s.returned <= Perform(s, e).returned
  {
    if e.ProhibitFromWorker? || e.ProhibitFromOutside? {
      NotifyRoots(Prohibit(s), e.woken);
    }
  }

  /** A task's root, and that its outside Execute has returned, stay on record. */
  ghost predicate OnRecord(s: State, task: Task, root: Task) {
    task in s.root && s.root[task] == root
  }

  lemma RootKept(s: State, e: Event, s': State, task: Task, root: Task)
    requires Step(s, e, s') && OnRecord(s, task, root)
    ensures OnRecord(s', task, root)
  {
    if StartsLoop(e) {
      LoopRoots(s, e);
    } else if StealsOrParks(e) {
      StealRoots(s, e);
    } else if e.Spawn? {
      SpawnRoots(s, e.w, e.task, e.hint);
    } else {
      SubmissionRoots(s, e);
    }
  }

  lemma {:induction false} RootAlong(states: seq<State>, events: seq<Event>, i: nat, j: nat, task: Task, root: Task)
    requires Runs.IsRun(Init, Step, states, events) && i <= j < |states| && OnRecord(states[i], task, root)
    ensures OnRecord(states[j], task, root)
    decreases j - i
  {
    if i < j {
      assert Step(states[i], events[i], states[i + 1]);
      RootKept(states[i], events[i], states[i + 1], task, root);
      RootAlong(states, events, i + 1, j, task, root);
    }
  }

  lemma ReturnedKept(s: State, e: Event, s': State)
    requires Step(s, e, s')
    ensures s.returned <= s'.returned
  {
    if StartsLoop(e) {
      LoopRoots(s, e);
    } else if StealsOrParks(e) {
      StealRoots(s, e);
    } else if e.Spawn? {
      SpawnRoots(s, e.w, e.task, e.hint);
    } else {
      SubmissionRoots(s, e);
    }
  }

  lemma {:induction false} ReturnedAlong(states: seq<State>, events: seq<Event>, i: nat, j: nat)
    requires Runs.IsRun(Init, Step, states, events) && i <= j < |states|
    ensures states[i].returned <= states[j].returned
    decreases j - i
  {
    if i < j {
      assert Step(states[i], events[i], states[i + 1]);
      ReturnedKept(states[i], events[i], states[i + 1]);
      ReturnedAlong(states, events, i + 1, j);
    }
  }

  lemma SubmitRecords(states: seq<State>, events: seq<Event>, a: nat, n: nat, y: Id, t: Task)
    requires Runs.IsRun(Init, Step, states, events) && a < n < |states| && events[a] == Submit(y, t)
    ensures OnRecord(states[n], t, t)
  {
    assert Step(states[a], events[a], states[a + 1]);
    RootAlong(states, events, a + 1, n, t, t);
  }

  lemma SubmittedBefore(states: seq<State>, events: seq<Event>, a: nat, n: nat, y: Id, t: Task)
    requires Runs.IsRun(Init, Step, states, events) && a < |events| && n < |states| && events[a] == Submit(y, t)
    requires t in states[n].root
    ensures a < n
  {
    assert Step(states[a], events[a], states[a + 1]);
    if n <= a {
      RootAlong(states, events, n, a, t, states[n].root[t]);
    }
  }

  lemma {:induction false} DescendantRecorded(states: seq<State>, events: seq<Event>, a: nat, n: nat, y: Id, u: Task, t: Task)
    requires Runs.IsRun(Init, Step, states, events) && a < |events| && n < |states| && events[a] == Submit(y, t)
    requires Descends(states, events, u, t, n) && (u == t ==> a < n || t in states[n].root)
    ensures OnRecord(states[n], u, t)
    decreases n
  {
    if u == t {
      if t in states[n].root {
        SubmittedBefore(states, events, a, n, y, t);
      }
      SubmitRecords(states, events, a, n, y, t);
    } else {
      var k :| 0 <= k < n && SpawnedBy(states, events, u, k) && Descends(states, events, PcAt(states[k], events[k].w).task, t, k);
      var parent := PcAt(states[k], events[k].w).task;
      assert Step(states[k], events[k], states[k + 1]);
      DescendantRecorded(states, events, a, k, y, parent, t);
      SpawnRoots(states[k], events[k].w, u, events[k].hint);
      RootAlong(states, events, k + 1, n, u, t);
    }
  }

  /** Task t is handed to Execute by outside thread y at event a, and that call returns at event b. If WaitIdle is called
      after that, at event i, and returns at event j, then by then t has finished and so has every task that descends from
      it, through however many calls of Execute inside tasks. */
  lemma WaitIdleCoversDescendants(states: seq<State>, events: seq<Event>, y: Id, t: Task, a: nat, b: nat,
                                  x: Id, i: nat, j: nat, u: Task)
    requires Runs.IsRun(Init, Step, states, events) && a < b < i < j < |events|
    requires events[a] == Submit(y, t) && OwnOutside(events[b], y) && forall k :: a < k < b ==> !OwnOutside(events[k], y)
    requires events[i] == CallWaitIdle(x) && events[j] == SeeWorkersIdle(x)
    requires forall k :: i < k < j ==> events[k] != CallWaitIdle(x)
    requires Descends(states, events, u, t, j)
    ensures u in Finished(states[j + 1])
  {
    OutsideExecuteProhibits(states, events, a, b, y, t);
    ReturnedAlong(states, events, b + 1, i);
    DescendantRecorded(states, events, a, j, y, u, t);
    WaitIdleSound(states, events, x, i, j, u);
  }
}
