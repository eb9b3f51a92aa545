/** What the work-stealing pool promises, for every run. */
module WorkerPoolTheorems {
  import opened Lists
  import opened GlobalTasks
  import opened WorkerPool
  import opened WorkerPoolProofs
  import Runs

  // ----- no lost wakeup

  /** In every state of every run: tasks in the global queue, and no outsider halfway through Execute, imply a
      worker that is awake or already notified and will grab again before it can park. */
  lemma NoLostWakeup(states: seq<State>, events: seq<Event>, i: nat)
    requires Runs.IsRun(Init, Step, states, events) && i < |states|
    requires states[i].queue != [] && OutsidersQuiet(states[i])
    ensures exists w :: WillGrab(states[i], w)
  {
    RunsKeepInv(states, events);
  }

  /** What "will grab again" is worth: the commitment survives every step of every thread, except the worker's
      own second grab finding the queue empty, or another worker, committed itself, allowing parking. */
  lemma CommitmentKept(s: State, e: Event, s': State, w: Id)
    requires Inv(s) && WillGrab(s, w) && Step(s, e, s')
    ensures WillGrab(s', w) || (e == GrabAgain(w) && s.queue == []) || (e.AllowParking? && WillGrab(s', e.w))
  {
    if StartsLoop(e) {
      LoopCommitment(s, e, w);
    } else if StealsOrParks(e) {
      StealCommitment(s, e, w);
    } else {
      SubmissionCommitment(s, e, w);
    }
  }

  lemma GrabCommitment(s: State, v: Id, from: Pc, otherwise: Pc, w: Id)
    requires WillGrab(s, w) && CanGrab(s, v, from) && Eager(from)
    ensures WillGrab(GrabShare(s, v, from, otherwise), w) || (v == w && !Eager(otherwise) && s.queue == [])
  {
    ShareZero(LOCAL_CAPACITY / 2, |s.queue|, |s.workers|);
  }

  lemma AllowCommitment(s: State, v: Id, w: Id)
    requires WillGrab(s, w) && At(s, v, Allow)
    ensures WillGrab(Go(PermitParking(s), v, SecondGrab), v)
  {
  }

  /** A worker's own move, and waking a sleeper, take nobody's commitment away. */
  lemma MoveCommitment(s: State, v: Id, r: WorkerState, w: Id)
    requires WillGrab(s, w) && 0 <= v < |s.workers|
    requires Eager(s.workers[v].pc) ==> Eager(r.pc)
    requires s.workers[v].pc.Notified? ==> r.pc.Notified? || Eager(r.pc)
    requires Drained(s.workers[v].pc) ==> Drained(r.pc) || Eager(r.pc)
    ensures WillGrab(Put(s, v, r), w)
  {
  }

  lemma NudgeCommitment(s: State, v: Id, woken: Option<Id>, w: Id)
    requires WillGrab(s, w) && CanNudge(s, v, woken)
    ensures WillGrab(DoNudge(s, v, woken), w)
  {
  }

  lemma LoopCommitment(s: State, e: Event, w: Id)
    requires WillGrab(s, w) && Enabled(s, e) && StartsLoop(e)
    ensures WillGrab(Perform(s, e), w) || (e == GrabAgain(w) && s.queue == [])
            || (e.AllowParking? && WillGrab(Perform(s, e), e.w))
  {
    match e
    case Count(v) => MoveCommitment(s, v, DoCount(s.workers[v]), w);
    case AwakeOne(v, woken) => NudgeCommitment(s, v, woken, w);
    case TryLifo(v) => MoveCommitment(s, v, DoTryLifo(s.workers[v]), w);
    case TryPop(v) => MoveCommitment(s, v, DoTryPop(s.workers[v]), w);
    case Grab(v) => GrabCommitment(s, v, FirstGrab, Allow, w);
    case AllowParking(v) => AllowCommitment(s, v, w);
    case GrabAgain(v) => GrabCommitment(s, v, SecondGrab, StealTest, w);
    case PushMany(v) => MoveCommitment(s, v, DoPushMany(s.workers[v]), w);
  }

  lemma TakeCommitment(s: State, v: Id, taken: nat, w: Id)
    requires WillGrab(s, w) && CanTake(s, v, taken)
    ensures WillGrab(DoTake(s, v, taken), w)
  {
  }

  lemma ParkCommitment(s: State, v: Id, w: Id)
    requires WillGrab(s, w) && CanPark(s, v)
    ensures WillGrab(DoPark(s, v), w)
  {
  }

  lemma StealCommitment(s: State, e: Event, w: Id)
    requires WillGrab(s, w) && Enabled(s, e) && StealsOrParks(e)
    ensures WillGrab(Perform(s, e), w)
  {
    var r := s.workers[e.w];
    if e.GrabFromVictim? {
      TakeCommitment(s, e.w, e.taken, w);
    } else if e.TryParkMe? {
      ParkCommitment(s, e.w, w);
    } else if e.Reenlist? {
      MoveCommitment(Enlist(s, e.w), e.w, r.(pc := Top), w);
    } else {
      MoveCommitment(s, e.w, Perform(s, e).workers[e.w], w);
    }
  }

  lemma SpawnCommitment(s: State, v: Id, task: Task, hint: Hint, w: Id)
    requires WillGrab(s, w) && CanSpawn(s, v, task, hint)
    ensures WillGrab(DoSpawn(s, v, task, hint), w)
  {
  }

  lemma ProhibitCommitment(s: State, v: Id, woken: Option<Id>, w: Id)
    requires WillGrab(s, w) && CanProhibit(s, v, woken)
    ensures WillGrab(DoProhibit(s, v, woken), w)
  {
  }

  lemma ReturnCommitment(s: State, x: Id, woken: Option<Id>, w: Id)
    requires WillGrab(s, w) && CanProhibitOutside(s, x, woken)
    ensures WillGrab(DoProhibitOutside(s, x, woken), w)
  {
  }

  lemma SubmissionCommitment(s: State, e: Event, w: Id)
    requires WillGrab(s, w) && Enabled(s, e) && !StartsLoop(e) && !StealsOrParks(e)
    ensures WillGrab(Perform(s, e), w)
  {
    match e
    case Spawn(v, task, hint) => SpawnCommitment(s, v, task, hint, w);
    case ProhibitFromWorker(v, woken) => ProhibitCommitment(s, v, woken, w);
    case ProhibitFromOutside(x, woken) => ReturnCommitment(s, x, woken, w);
    case _ =>
  }

  /** Never: all workers asleep, nobody notified, nobody submitting, and a task still in the global queue. */
  lemma NobodySleepsOnWork(states: seq<State>, events: seq<Event>, i: nat)
    requires Runs.IsRun(Init, Step, states, events) && i < |states|
    requires OutsidersQuiet(states[i])
    requires forall w :: 0 <= w < |states[i].workers| ==> states[i].workers[w].pc == Asleep
    ensures states[i].queue == []
  {
    RunsKeepInv(states, events);
    assert Inv(states[i]);
    assert forall w :: !WillGrab(states[i], w);
  }

  // ----- conservation

  ghost function Copies(s: State, t: Task, w: Id): nat
    requires 0 <= w < |s.workers|
  {
    Held(s.workers[w])[t]
  }

  lemma {:induction false} SomeHolder(ws: seq<WorkerState>, t: Task) returns (w: Id)
    requires t in HeldByAll(ws)
    ensures 0 <= w < |ws| && t in Held(ws[w])
  {
    var n := |ws| - 1;
    if t in Held(ws[n]) {
      w := n;
    } else {
      w := SomeHolder(ws[..n], t);
    }
  }

  /** All tasks but those of worker v. */
  lemma OthersHold(ws: seq<WorkerState>, v: Id) returns (others: seq<WorkerState>)
    requires 0 <= v < |ws|
    ensures |others| == |ws| && forall w :: 0 <= w < |ws| && w != v ==> others[w] == ws[w]
    ensures HeldByAll(ws) == HeldByAll(others) + Held(ws[v])
  {
    var idle := WorkerState(Top, [], None, 0, 0);
    assert Held(idle) == multiset{};
    others := ws[v := idle];
    HeldUpdate(ws, v, idle);
  }

  lemma TwoParts(one: multiset<Task>, other: multiset<Task>, rest: multiset<Task>, t: Task)
    requires other <= rest
    ensures (rest + one)[t] >= one[t] + other[t]
  {
  }

  lemma TwoHolders(ws: seq<WorkerState>, t: Task, v: Id, w: Id)
    requires 0 <= v < |ws| && 0 <= w < |ws| && v != w
    ensures HeldByAll(ws)[t] >= Held(ws[v])[t] + Held(ws[w])[t]
  {
    var others := OthersHold(ws, v);
    HeldIncludes(others, w);
    TwoParts(Held(ws[v]), Held(ws[w]), HeldByAll(others), t);
  }

  /** Every submitted task is in exactly one place, once: the global queue, one worker's hands (its queue, slot,
      transfer buffer, or running), or finished. */
  lemma TaskInOnePlace(states: seq<State>, events: seq<Event>, i: nat, t: Task)
    requires Runs.IsRun(Init, Step, states, events) && i < |states|
    requires t in states[i].root
    ensures var s := states[i];
            || (multiset(s.queue)[t] == 1 && t !in Finished(s) && forall w :: 0 <= w < |s.workers| ==> Copies(s, t, w) == 0)
            || (t !in s.queue && Finished(s)[t] == 1 && forall w :: 0 <= w < |s.workers| ==> Copies(s, t, w) == 0)
            || (t !in s.queue && t !in Finished(s) && exists w ::
                  && 0 <= w < |s.workers| && Copies(s, t, w) == 1
                  && forall v :: 0 <= v < |s.workers| && v != w ==> Copies(s, t, v) == 0)
  {
    RunsKeepInv(states, events);
    var s := states[i];
    var all := multiset(s.queue) + HeldByAll(s.workers) + Finished(s);
    assert all[t] == multiset(s.root.Keys)[t] == 1;
    assert all[t] == multiset(s.queue)[t] + HeldByAll(s.workers)[t] + Finished(s)[t];
    if HeldByAll(s.workers)[t] == 0 {
      forall w | 0 <= w < |s.workers| ensures Copies(s, t, w) == 0 { HeldIncludes(s.workers, w); }
      assert t in s.queue <==> t in multiset(s.queue);
    } else {
      var w := SomeHolder(s.workers, t);
      HeldIncludes(s.workers, w);
      assert Copies(s, t, w) == 1;
      forall v | 0 <= v < |s.workers| && v != w ensures Copies(s, t, v) == 0 {
        TwoHolders(s.workers, t, v, w);
      }
      assert t !in multiset(s.queue);
    }
  }

  // ----- WaitIdle

  lemma OnlyQueued(queued: multiset<Task>, held: multiset<Task>, finished: multiset<Task>, all: multiset<Task>, t: Task)
    requires queued + held + finished == all && all[t] == 1
    requires held[t] == 0 && finished[t] == 0
    ensures t in queued
  {
    assert (queued + held + finished)[t] == queued[t] + held[t] + finished[t];
  }

  lemma NobodyHolds(s: State)
    requires ListsInv(s) && LocalInv(s) && s.workersBusy == 0
    ensures HeldByAll(s.workers) == multiset{}
  {
    forall w | 0 <= w < |s.workers| ensures Held(s.workers[w]) == multiset{} {
      assert !Linked(s, w);
    }
    HeldByNobody(s.workers);
  }

  /** With every worker counted out, the only unfinished tasks are outsiders' tasks still in the global queue. */
  lemma AllParked(s: State, t: Task)
    requires Inv(s) && s.workersBusy == 0 && t in s.root && t !in Finished(s)
    ensures t in s.queue && s.pusher[t].None? && s.root[t] == t
  {
    NobodyHolds(s);
    OnlyQueued(multiset(s.queue), HeldByAll(s.workers), Finished(s), multiset(s.root.Keys), t);
    NobodyEager(s, t);
  }

  lemma NobodyEager(s: State, t: Task)
    requires ListsInv(s) && PusherInv(s) && s.workersBusy == 0 && t in s.queue
    ensures s.pusher[t].None? && s.root[t] == t
  {
    forall w | 0 <= w < |s.workers| ensures !Eager(s.workers[w].pc) {
      assert !Linked(s, w);
    }
  }

  lemma WaiterReturnsSound(s: State, x: Id, t: Task)
    requires Inv(s) && Enabled(s, SeeWorkersIdle(x)) && t in s.root && s.root[t] in s.outside[x].due
    ensures t in Finished(s)
  {
    if t !in Finished(s) {
      AllParked(s, t);
    }
  }

  /** Outsider x is waiting with this debt, or not waiting at all. */
  ghost predicate DueIs(s: State, x: Id, due: set<Task>) {
    x in s.outside ==>
      && (s.outside[x].WaitQueue? ==> s.outside[x].due == due)
      && (s.outside[x].WaitWorkers? ==> s.outside[x].due == due)
  }

  lemma DueKept(s: State, e: Event, x: Id, due: set<Task>)
    requires DueIs(s, x, due) && Enabled(s, e) && e != CallWaitIdle(x)
    ensures DueIs(Perform(s, e), x, due)
  {
    if StartsLoop(e) { LoopOutside(s, e); }
    else if StealsOrParks(e) { StealOutside(s, e); }
  }

  lemma GrabOutside(s: State, w: Id, from: Pc, otherwise: Pc)
    requires CanGrab(s, w, from)
    ensures GrabShare(s, w, from, otherwise).outside == s.outside
  {
  }

  lemma NudgeOutside(s: State, w: Id, woken: Option<Id>)
    requires CanNudge(s, w, woken)
    ensures DoNudge(s, w, woken).outside == s.outside
  {
  }

  lemma LoopOutside(s: State, e: Event)
    requires Enabled(s, e) && StartsLoop(e)
    ensures Perform(s, e).outside == s.outside
  {
    if e.Grab? {
      GrabOutside(s, e.w, FirstGrab, Allow);
    } else if e.GrabAgain? {
      GrabOutside(s, e.w, SecondGrab, StealTest);
    } else if e.AwakeOne? {
      NudgeOutside(s, e.w, e.woken);
    } else {
      assert Perform(s, e).outside == s.outside;
    }
  }

  lemma TakeOutside(s: State, w: Id, taken: nat)
    requires CanTake(s, w, taken)
    ensures DoTake(s, w, taken).outside == s.outside
  {
  }

  lemma ParkOutside(s: State, w: Id)
    requires CanPark(s, w)
    ensures DoPark(s, w).outside == s.outside
  {
  }

  lemma StealOutside(s: State, e: Event)
    requires Enabled(s, e) && StealsOrParks(e)
    ensures Perform(s, e).outside == s.outside
  {
    if e.GrabFromVictim? {
      TakeOutside(s, e.w, e.taken);
    } else if e.TryParkMe? {
      ParkOutside(s, e.w);
    } else if e.Reenlist? {
      assert Enlist(s, e.w).outside == s.outside;
    } else {
      assert Perform(s, e).outside == s.outside;
    }
  }

  lemma {:induction false} DueAlong(states: seq<State>, events: seq<Event>, x: Id, from: nat, upto: nat, due: set<Task>)
    requires Runs.IsRun(Init, Step, states, events) && from <= upto < |states|
    requires DueIs(states[from], x, due)
    requires forall k :: from <= k < upto ==> events[k] != CallWaitIdle(x)
    ensures DueIs(states[upto], x, due)
    decreases upto - from
  {
    if from < upto {
      assert Step(states[from], events[from], states[from + 1]);
      DueKept(states[from], events[from], x, due);
      DueAlong(states, events, x, from + 1, upto, due);
    }
  }

  /** WaitIdle, called at event i and returning at event j: by then every task whose outside Execute had returned
      before the call, and every task those spawned from worker threads, directly or not, has finished. */
  lemma WaitIdleSound(states: seq<State>, events: seq<Event>, x: Id, i: nat, j: nat, t: Task)
    requires Runs.IsRun(Init, Step, states, events) && i < j < |events|
    requires events[i] == CallWaitIdle(x) && events[j] == SeeWorkersIdle(x)
    requires forall k :: i < k < j ==> events[k] != CallWaitIdle(x)
    requires t in states[j].root && states[j].root[t] in states[i].returned
    ensures t in Finished(states[j + 1])
  {
    RunsKeepInv(states, events);
    assert Step(states[i], events[i], states[i + 1]);
    DueAlong(states, events, x, i + 1, j, states[i].returned);
    assert Step(states[j], events[j], states[j + 1]);
    WaiterReturnsSound(states[j], x, t);
  }

  // ----- the source's own run-time checks

  /** PushMany's capacity assertion, GiveVictim's division, and the idle counters' assertions never fail: whenever
      a worker of any run stands before one of them, the check passes. */
  lemma RuntimeChecksPass(states: seq<State>, events: seq<Event>, i: nat, w: Id)
    requires Runs.IsRun(Init, Step, states, events) && i < |states| && 0 <= w < |states[i].workers|
    ensures var s := states[i];
            var r := s.workers[w];
            && (r.pc.Fill? ==> 1 <= |r.pc.buffer| && |r.local| + (|r.pc.buffer| - 1) <= LOCAL_CAPACITY)
            && (r.pc.Steal? ==> |s.active| + |s.passive| > 0)
            && (r.pc.Park? ==> s.workersBusy > 0)
            && (s.queue != [] ==> s.queueBusy > 0)
            && (r.pc.Measure? || r.pc.Take? ==> 0 <= r.pc.victim < |s.workers| && r.pc.victim != w)
  {
    RunsKeepInv(states, events);
    var s := states[i];
    assert !Unlinked(s.workers[w].pc) ==> Linked(s, w);
    assert WorkerOk(s.workers[w]);
  }
}
