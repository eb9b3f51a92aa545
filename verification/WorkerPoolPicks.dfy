/** PickNextTask as a whole: in which order a worker takes its steps, whatever all others do in between. */
module WorkerPoolPicks {
  import opened Lists
  import opened Coordination
  import opened GlobalTasks
  import opened WorkerPool
  import opened WorkerPoolProofs
  import opened WorkerPoolTheorems
  import opened WorkerPoolTurns
  import opened WorkerPoolParking
  import Histories
  import Runs

  // ----- the order of the steps

  /** The worker is inside a task: it may call Execute or come to its end. */
  ghost predicate InTask(e: Event) {
    e.Spawn? || e.Finish?
  }

  /** Another attempt to steal, or the end of all attempts. */
  ghost predicate TriesOn(e: Event) {
    e.AskVictim? || e.GiveUpStealing?
  }

  /** With which step worker w goes on after step e in state s, as PickNextTask and Execute prescribe. */
  ghost predicate GoesOn(s: State, w: Id, e: Event, next: Event)
    requires 0 <= w < |s.workers| == |s.flags|
  {
    var r := s.workers[w];
    match e
    case Count(_) => next.AwakeOne? || next.TryLifo?
    case AwakeOne(_, _) => next.TryLifo?
    case TryLifo(_) => if r.lifo.Some? && r.lifoUsage < 19 then InTask(next) else next.TryPop?
    case TryPop(_) => if r.local != [] then InTask(next) else next.Grab?
    case Grab(_) => if s.queue != [] then next.PushMany? else next.AllowParking?
    case AllowParking(_) => next.GrabAgain?
    case GrabAgain(_) => if s.queue != [] then next.PushMany? else next.TestImpudence?
    case PushMany(_) => InTask(next)
    case TestImpudence(_) => if s.flags[w] == Active then TriesOn(next) else next.RetestLifo?
    case AskVictim(_, _) => next.LowSize? || TriesOn(next)
    case LowSize(_, _) => next.GrabFromVictim?
    case GrabFromVictim(_, taken) => if taken > 0 then next.PushMany? else TriesOn(next)
    case GiveUpStealing(_) => next.RetestLifo?
    case RetestLifo(_) => if r.lifo.Some? then next.Count? else next.TryParkMe?
    case TryParkMe(_) => if s.permission == Allowed then next.SpuriousWakeup? || next.Reenlist? else next.Count?
    case SpuriousWakeup(_) => next.Reenlist?
    case Reenlist(_) => next.Count?
    case Spawn(_, _, hint) => if hint == Slow then next.ProhibitFromWorker? else InTask(next)
    case ProhibitFromWorker(_, _) => InTask(next)
    case Finish(_, _) => next.Count?
    case _ => false
  }

  /** The step that a worker takes where it stands. */
  ghost predicate Fits(pc: Pc, e: Event) {
    match pc
    case Top => e.Count?
    case Nudge => e.AwakeOne?
    case TakeLifo => e.TryLifo?
    case PopLocal => e.TryPop?
    case FirstGrab => e.Grab?
    case Allow => e.AllowParking?
    case SecondGrab => e.GrabAgain?
    case Fill(_) => e.PushMany?
    case StealTest => e.TestImpudence?
    case Steal(_) => TriesOn(e)
    case Measure(_, _) => e.LowSize?
    case Take(_, _, _) => e.GrabFromVictim?
    case LifoAgain => e.RetestLifo?
    case Park => e.TryParkMe?
    case Asleep => e.SpuriousWakeup?
    case Notified => e.Reenlist?
    case Run(_) => InTask(e)
    case SlowPushed(_) => e.ProhibitFromWorker?
  }

  lemma OwnFits(s: State, e: Event, w: Id)
    requires Enabled(s, e) && Own(e, w)
    ensures 0 <= w < |s.workers| && Fits(s.workers[w].pc, e)
  {
  }

  /** Asleep, or woken since. */
  predicate StillThere(pc: Pc, pc': Pc) {
    pc' == pc || (pc.Asleep? && pc'.Notified?)
  }

  lemma OthersLetItStay(s: State, e: Event, w: Id)
    requires Enabled(s, e) && !Own(e, w) && 0 <= w < |s.workers|
    ensures |Perform(s, e).workers| == |s.workers| && StillThere(s.workers[w].pc, Perform(s, e).workers[w].pc)
  {
    OthersLeave(s, e, w);
  }

  lemma {:induction false} StaysThere(states: seq<State>, events: seq<Event>, i: nat, j: nat, w: Id)
    requires Runs.IsRun(Init, Step, states, events) && i <= j < |states| && 0 <= w < |states[i].workers|
    requires forall k :: i <= k < j ==> !Own(events[k], w)
    ensures |states[j].workers| == |states[i].workers| && StillThere(PcAt(states[i], w), PcAt(states[j], w))
    decreases j
  {
    if i < j {
      var k := j - 1;
      StaysThere(states, events, i, k, w);
      assert Step(states[k], events[k], states[k + 1]);
      OthersLetItStay(states[k], events[k], w);
    }
  }

  // what one step leads to

  lemma GrabLeadsTo(s: State, w: Id, from: Pc, otherwise: Pc)
    requires Inv(s) && CanGrab(s, w, from) && |s.workers| > 0
    ensures var pc := GrabShare(s, w, from, otherwise).workers[w].pc; if s.queue != [] then pc.Fill? else pc == otherwise
  {
    ShareZero(LOCAL_CAPACITY / 2, |s.queue|, |s.workers|);
  }

  lemma GrabGoesOn(s: State, w: Id, e: Event, next: Event)
    requires Inv(s) && Enabled(s, e) && Own(e, w) && (e.Grab? || e.GrabAgain?)
    requires 0 <= w < |Perform(s, e).workers|
    ensures PcAt(Perform(s, e), w) != Asleep
    ensures Fits(PcAt(Perform(s, e), w), next) ==> GoesOn(s, w, e, next)
  {
    if e.Grab? {
      GrabLeadsTo(s, w, FirstGrab, Allow);
    } else {
      GrabLeadsTo(s, w, SecondGrab, StealTest);
    }
  }

  lemma PickGoesOn(s: State, w: Id, e: Event, next: Event)
    requires Inv(s) && Enabled(s, e) && Own(e, w) && (e.Count? || e.TryLifo? || e.TryPop? || e.AllowParking? || e.PushMany?)
    requires 0 <= w < |Perform(s, e).workers|
    ensures PcAt(Perform(s, e), w) != Asleep
    ensures Fits(PcAt(Perform(s, e), w), next) ==> GoesOn(s, w, e, next)
  {
  }

  lemma NudgeGoesOn(s: State, w: Id, e: Event, next: Event)
    requires Inv(s) && Enabled(s, e) && Own(e, w) && e.AwakeOne?
    requires 0 <= w < |Perform(s, e).workers|
    ensures PcAt(Perform(s, e), w) != Asleep
    ensures Fits(PcAt(Perform(s, e), w), next) ==> GoesOn(s, w, e, next)
  {
  }

  lemma LoopGoesOn(s: State, w: Id, e: Event, next: Event)
    requires Inv(s) && Enabled(s, e) && Own(e, w) && StartsLoop(e)
    requires 0 <= w < |Perform(s, e).workers|
    ensures PcAt(Perform(s, e), w) != Asleep
    ensures Fits(PcAt(Perform(s, e), w), next) ==> GoesOn(s, w, e, next)
  {
    if e.Grab? || e.GrabAgain? {
      GrabGoesOn(s, w, e, next);
    } else if e.AwakeOne? {
      NudgeGoesOn(s, w, e, next);
    } else {
      PickGoesOn(s, w, e, next);
    }
  }

  lemma TakeLeadsTo(s: State, w: Id, taken: nat)
    requires CanTake(s, w, taken)
    ensures var pc := DoTake(s, w, taken).workers[w].pc; if taken > 0 then pc.Fill? else pc.Steal?
  {
  }

  lemma TakeGoesOn(s: State, w: Id, e: Event, next: Event)
    requires Inv(s) && Enabled(s, e) && Own(e, w) && e.GrabFromVictim?
    requires 0 <= w < |Perform(s, e).workers|
    ensures PcAt(Perform(s, e), w) != Asleep
    ensures Fits(PcAt(Perform(s, e), w), next) ==> GoesOn(s, w, e, next)
  {
    TakeLeadsTo(s, w, e.taken);
  }

  lemma AttemptGoesOn(s: State, w: Id, e: Event, next: Event)
    requires Inv(s) && Enabled(s, e) && Own(e, w) && (e.TestImpudence? || e.AskVictim? || e.GiveUpStealing? || e.LowSize?)
    requires 0 <= w < |Perform(s, e).workers|
    ensures PcAt(Perform(s, e), w) != Asleep
    ensures Fits(PcAt(Perform(s, e), w), next) ==> GoesOn(s, w, e, next)
  {
  }

  lemma SleepGoesOn(s: State, w: Id, e: Event, next: Event)
    requires Inv(s) && Enabled(s, e) && Own(e, w) && (e.RetestLifo? || e.SpuriousWakeup? || e.Reenlist?)
    requires 0 <= w < |Perform(s, e).workers|
    ensures PcAt(Perform(s, e), w) != Asleep
    ensures Fits(PcAt(Perform(s, e), w), next) ==> GoesOn(s, w, e, next)
  {
  }

  lemma StealGoesOn(s: State, w: Id, e: Event, next: Event)
    requires Inv(s) && Enabled(s, e) && Own(e, w) && StealsOrParks(e) && !e.TryParkMe?
    requires 0 <= w < |Perform(s, e).workers|
    ensures PcAt(Perform(s, e), w) != Asleep
    ensures Fits(PcAt(Perform(s, e), w), next) ==> GoesOn(s, w, e, next)
  {
    if e.GrabFromVictim? {
      TakeGoesOn(s, w, e, next);
    } else if e.RetestLifo? || e.SpuriousWakeup? || e.Reenlist? {
      SleepGoesOn(s, w, e, next);
    } else {
      AttemptGoesOn(s, w, e, next);
    }
  }

  lemma ParkGoesOn(s: State, w: Id, pc: Pc, next: Event)
    requires Inv(s) && CanPark(s, w)
    requires StillThere(DoPark(s, w).workers[w].pc, pc) && Fits(pc, next)
    ensures GoesOn(s, w, TryParkMe(w), next)
  {
  }

  lemma SpawnLeadsTo(s: State, w: Id, task: Task, hint: Hint)
    requires CanSpawn(s, w, task, hint)
    ensures var pc := DoSpawn(s, w, task, hint).workers[w].pc; if hint == Slow then pc.SlowPushed? else pc.Run?
  {
  }

  lemma ProhibitLeadsTo(s: State, w: Id, woken: Option<Id>)
    requires CanProhibit(s, w, woken)
    ensures DoProhibit(s, w, woken).workers[w].pc.Run?
  {
  }

  lemma TaskGoesOn(s: State, w: Id, e: Event, next: Event)
    requires Enabled(s, e) && Own(e, w) && !StartsLoop(e) && !StealsOrParks(e) && |s.flags| == |s.workers|
    requires 0 <= w < |Perform(s, e).workers|
    ensures PcAt(Perform(s, e), w) != Asleep
    ensures Fits(PcAt(Perform(s, e), w), next) ==> 0 <= w < |s.workers| && GoesOn(s, w, e, next)
  {
    if e.Spawn? {
      SpawnLeadsTo(s, w, e.task, e.hint);
    } else if e.ProhibitFromWorker? {
      ProhibitLeadsTo(s, w, e.woken);
    }
  }

  lemma StepGoesOn(s: State, w: Id, e: Event, pc: Pc, next: Event)
    requires Inv(s) && Enabled(s, e) && Own(e, w) && 0 <= w < |Perform(s, e).workers|
    requires StillThere(PcAt(Perform(s, e), w), pc) && Fits(pc, next)
    ensures GoesOn(s, w, e, next)
  {
    if e.TryParkMe? {
      ParkGoesOn(s, w, pc, next);
    } else if StartsLoop(e) {
      LoopGoesOn(s, w, e, next);
    } else if StealsOrParks(e) {
      StealGoesOn(s, w, e, next);
    } else {
      TaskGoesOn(s, w, e, next);
    }
  }

  /** Two steps of worker w with none of its own in between. */
  ghost predicate Consecutive(events: seq<Event>, i: nat, j: nat, w: Id) {
    i < j < |events| && Own(events[i], w) && Own(events[j], w) && forall k :: i < k < j ==> !Own(events[k], w)
  }

  /** On every run, every worker takes its steps in the order of PickNextTask, Work and Execute. */
  lemma FollowsPickNextTask(states: seq<State>, events: seq<Event>, i: nat, j: nat, w: Id)
    requires Runs.IsRun(Init, Step, states, events) && Consecutive(events, i, j, w)
    ensures 0 <= w < |states[i].workers| == |states[i].flags| && GoesOn(states[i], w, events[i], events[j])
  {
    RunsKeepInv(states, events);
    var s, e, next := states[i], events[i], events[j];
    assert Step(s, e, states[i + 1]) && Step(states[j], next, states[j + 1]);
    OwnFits(s, e, w);
    OwnFits(states[j], next, w);
    SameSize(s, e);
    StaysThere(states, events, i + 1, j, w);
    StepGoesOn(s, w, e, PcAt(states[j], w), next);
  }

  // ----- nobody parks without having looked everywhere

  /** A worker starts with the first line of its loop. */
  lemma {:induction false} CountsFirst(states: seq<State>, events: seq<Event>, j: nat, w: Id) returns (i: nat)
    requires Runs.IsRun(Init, Step, states, events) && j < |events| && Own(events[j], w) && !events[j].Count?
    ensures Consecutive(events, i, j, w)
  {
    i := j;
    while i > 0 && !Own(events[i - 1], w)
      invariant i <= j && forall k :: i <= k < j ==> !Own(events[k], w)
    {
      i := i - 1;
    }
    if i == 0 {
      assert Step(states[j], events[j], states[j + 1]);
      OwnFits(states[j], events[j], w);
      SizeAlong(states, events, 0, j);
      StaysThere(states, events, 0, j, w);
    } else {
      i := i - 1;
    }
  }

  predicate InStealing(e: Event) {
    e.AskVictim? || e.LowSize? || e.GrabFromVictim? || e.GiveUpStealing?
  }

  /** Stealing begins with the test of impudence_, which finds the worker active. */
  lemma {:induction false} BeganToSteal(states: seq<State>, events: seq<Event>, j: nat, w: Id) returns (i: nat)
    requires Runs.IsRun(Init, Step, states, events) && j < |events| && Own(events[j], w) && InStealing(events[j])
    ensures i < j && events[i] == TestImpudence(w) && 0 <= w < |states[i].flags| && states[i].flags[w] == Active
    ensures forall k :: i < k < j && Own(events[k], w) ==> InStealing(events[k])
    decreases j
  {
    var k := CountsFirst(states, events, j, w);
    FollowsPickNextTask(states, events, k, j, w);
    i := k;
    if InStealing(events[k]) {
      i := BeganToSteal(states, events, k, w);
    }
  }

  /** Before a worker parks, at event j, it has found its own queue empty, found the global queue empty twice and called
      AllowParking in between; then, at event t, it has tested whether it may steal; after all its attempts in vain, if it
      may, it has found its slot empty. It has done nothing else since it looked at its own queue, at event p. */
  lemma ParksAfterLookingEverywhere(states: seq<State>, events: seq<Event>, j: nat, w: Id)
      returns (p: nat, g: nat, a: nat, h: nat, t: nat, l: nat)
    requires Runs.IsRun(Init, Step, states, events) && j < |events| && events[j] == TryParkMe(w)
    ensures p < g < a < h < t < l < j
    ensures events[p] == TryPop(w) && 0 <= w < |states[p].workers| && states[p].workers[w].local == []
    ensures Consecutive(events, p, g, w) && events[g] == Event.Grab(w) && states[g].queue == []
    ensures Consecutive(events, g, a, w) && events[a] == AllowParking(w)
    ensures Consecutive(events, a, h, w) && events[h] == GrabAgain(w) && states[h].queue == []
    ensures Consecutive(events, h, t, w) && events[t] == TestImpudence(w)
    ensures 0 <= w < |states[t].flags|
    ensures if states[t].flags[w] == Active then
              exists k :: t < k < l && events[k] == GiveUpStealing(w) && Consecutive(events, k, l, w)
            else Consecutive(events, t, l, w)
    ensures forall k :: t < k < l && Own(events[k], w) ==> InStealing(events[k])
    ensures Consecutive(events, l, j, w) && events[l] == RetestLifo(w)
    ensures 0 <= w < |states[l].workers| && states[l].workers[w].lifo == None
  {
    l, t := TestedBefore(states, events, j, w);
    h := CountsFirst(states, events, t, w);
    FollowsPickNextTask(states, events, h, t, w);
    p, g, a := GrabbedBefore(states, events, h, w);
  }

  /** A worker parks only after a last look at its slot, and that only when it has tried to steal if it may. */
  lemma TestedBefore(states: seq<State>, events: seq<Event>, j: nat, w: Id) returns (l: nat, t: nat)
    requires Runs.IsRun(Init, Step, states, events) && j < |events| && events[j] == TryParkMe(w)
    ensures t < l < j && events[t] == TestImpudence(w) && 0 <= w < |states[t].flags|
    ensures if states[t].flags[w] == Active then
              exists k :: t < k < l && events[k] == GiveUpStealing(w) && Consecutive(events, k, l, w)
            else Consecutive(events, t, l, w)
    ensures forall k :: t < k < l && Own(events[k], w) ==> InStealing(events[k])
    ensures Consecutive(events, l, j, w) && events[l] == RetestLifo(w)
    ensures 0 <= w < |states[l].workers| && states[l].workers[w].lifo == None
  {
    l := CountsFirst(states, events, j, w);
    FollowsPickNextTask(states, events, l, j, w);
    t := CountsFirst(states, events, l, w);
    FollowsPickNextTask(states, events, t, l, w);
    if events[t].GiveUpStealing? {
      t := BeganToSteal(states, events, t, w);
    }
  }

  /** The second grab comes after the first and after AllowParking, and both come after the worker's own queue. */
  lemma GrabbedBefore(states: seq<State>, events: seq<Event>, h: nat, w: Id) returns (p: nat, g: nat, a: nat)
    requires Runs.IsRun(Init, Step, states, events) && h < |events| && events[h] == GrabAgain(w)
    ensures p < g < a < h
    ensures events[p] == TryPop(w) && 0 <= w < |states[p].workers| && states[p].workers[w].local == []
    ensures Consecutive(events, p, g, w) && events[g] == Event.Grab(w) && states[g].queue == []
    ensures Consecutive(events, g, a, w) && events[a] == AllowParking(w)
    ensures Consecutive(events, a, h, w)
  {
    a := CountsFirst(states, events, h, w);
    FollowsPickNextTask(states, events, a, h, w);
    g := CountsFirst(states, events, a, w);
    FollowsPickNextTask(states, events, g, a, w);
    p := CountsFirst(states, events, g, w);
    FollowsPickNextTask(states, events, p, g, w);
  }

  // ----- a thread outside

  ghost predicate IsFree(s: State, x: Id) {
    OutsideAt(s, x, Free)
  }

  ghost predicate InWaitIdle(s: State, x: Id, due: set<Task>) {
    OutsideAt(s, x, WaitQueue(due)) || OutsideAt(s, x, WaitWorkers(due))
  }

  lemma WaitIdleStep(s: State, e: Event, x: Id, due: set<Task>)
    requires Enabled(s, e) && InWaitIdle(s, x, due)
    ensures InWaitIdle(Perform(s, e), x, due) || (e == SeeWorkersIdle(x) && IsFree(Perform(s, e), x))
    ensures OutsideAt(s, x, WaitQueue(due)) && e != SeeQueueIdle(x) ==> OutsideAt(Perform(s, e), x, WaitQueue(due))
  {
    if StartsLoop(e) {
      LoopOutside(s, e);
    } else if StealsOrParks(e) {
      StealOutside(s, e);
    }
  }

  lemma FreeOrWaiting(s: State, x: Id, due: set<Task>)
    requires InWaitIdle(s, x, due)
    ensures !IsFree(s, x)
  {
  }

  lemma {:induction false} SeesQueueFirst(states: seq<State>, events: seq<Event>, i: nat, j: nat, x: Id, due: set<Task>)
      returns (k: nat)
    requires Runs.IsRun(Init, Step, states, events) && i < j < |states|
    requires OutsideAt(states[i], x, WaitQueue(due)) && !OutsideAt(states[j], x, WaitQueue(due))
    ensures i <= k < j && events[k] == SeeQueueIdle(x)
    decreases j - i
  {
    assert Step(states[i], events[i], states[i + 1]);
    WaitIdleStep(states[i], events[i], x, due);
    if events[i] == SeeQueueIdle(x) {
      k := i;
    } else {
      k := SeesQueueFirst(states, events, i + 1, j, x, due);
    }
  }

  /** Every task that descends from one of these has finished. */
  ghost predicate AllFinished(s: State, due: set<Task>, s': State) {
    forall t :: t in s.root && s.root[t] in due ==> t in Finished(s')
  }

  /** Everybody is asleep, or woken and not back yet. */
  ghost predicate NobodyBusy(s: State) {
    forall w :: 0 <= w < |s.workers| ==> Unlinked(s.workers[w].pc)
  }

  /** WaitIdle, called at event i and back in state j, has seen the global queue empty, at event k, and after that, in its
      last step, no worker busy; and every task due at its call, with all that descend from it, has finished. */
  lemma WaitIdleCall(states: seq<State>, events: seq<Event>, i: nat, j: nat, x: Id) returns (k: nat)
    requires Runs.IsRun(Init, Step, states, events) && i < |events| && events[i] == CallWaitIdle(x)
    requires Histories.Returns((s: State) => IsFree(s, x), states, i, j)
    ensures i < k < j - 1 && events[k] == SeeQueueIdle(x) && states[k].queue == []
    ensures events[j - 1] == SeeWorkersIdle(x) && NobodyBusy(states[j - 1])
    ensures AllFinished(states[j - 1], states[i].returned, states[j])
  {
    var due := states[i].returned;
    InsideWaitIdle(states, events, i, j, x);
    EndsSeeingWorkers(states, events, i, j, x, due);
    k := SeesQueueFirst(states, events, i + 1, j, x, due);
    assert Step(states[k], events[k], states[k + 1]);
    WaitIdleReturnsIff(states, events, k, x);
    DueHaveFinished(states, events, i, j, x);
  }

  lemma {:induction false} StaysInWaitIdle(
      states: seq<State>, events: seq<Event>, i: nat, m: nat, x: Id, due: set<Task>)
    requires Runs.IsRun(Init, Step, states, events) && i <= m < |states| && InWaitIdle(states[i], x, due)
    requires forall k :: i < k <= m ==> !IsFree(states[k], x)
    ensures forall k :: i <= k <= m ==> InWaitIdle(states[k], x, due)
    decreases m
  {
    if i < m {
      StaysInWaitIdle(states, events, i, m - 1, x, due);
      assert Step(states[m - 1], events[m - 1], states[m - 1 + 1]);
      WaitIdleStep(states[m - 1], events[m - 1], x, due);
    }
  }

  lemma InsideWaitIdle(states: seq<State>, events: seq<Event>, i: nat, j: nat, x: Id)
    requires Runs.IsRun(Init, Step, states, events) && i < |events| && events[i] == CallWaitIdle(x)
    requires Histories.Returns((s: State) => IsFree(s, x), states, i, j)
    ensures i + 1 < j && OutsideAt(states[i + 1], x, WaitQueue(states[i].returned))
    ensures forall k :: i < k < j ==> InWaitIdle(states[k], x, states[i].returned)
  {
    assert Step(states[i], events[i], states[i + 1]);
    assert InWaitIdle(states[i + 1], x, states[i].returned) && !IsFree(states[i + 1], x);
    StaysInWaitIdle(states, events, i + 1, j - 1, x, states[i].returned);
  }

  lemma EndsSeeingWorkers(states: seq<State>, events: seq<Event>, i: nat, j: nat, x: Id, due: set<Task>)
    requires Runs.IsRun(Init, Step, states, events) && i + 1 < j < |states|
    requires InWaitIdle(states[j - 1], x, due) && IsFree(states[j], x)
    ensures events[j - 1] == SeeWorkersIdle(x) && NobodyBusy(states[j - 1])
  {
    assert Step(states[j - 1], events[j - 1], states[j - 1 + 1]);
    WaitIdleStep(states[j - 1], events[j - 1], x, due);
    WaitIdleReturnsIff(states, events, j - 1, x);
  }

  lemma DueHaveFinished(states: seq<State>, events: seq<Event>, i: nat, j: nat, x: Id)
    requires Runs.IsRun(Init, Step, states, events) && i + 1 < j < |states|
    requires events[i] == CallWaitIdle(x) && events[j - 1] == SeeWorkersIdle(x)
    requires forall k :: i < k < j ==> InWaitIdle(states[k], x, states[i].returned)
    ensures AllFinished(states[j - 1], states[i].returned, states[j])
  {
    forall k | i < k < j - 1 ensures events[k] != CallWaitIdle(x) {
      assert Step(states[k], events[k], states[k + 1]);
      FreeOrWaiting(states[k], x, states[i].returned);
    }
    forall t | t in states[j - 1].root && states[j - 1].root[t] in states[i].returned ensures t in Finished(states[j]) {
      WaitIdleSound(states, events, x, i, j - 1, t);
    }
  }
}
