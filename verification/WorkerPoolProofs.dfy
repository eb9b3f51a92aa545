/** The proofs about the work-stealing pool: every step keeps every invariant, and what follows for all runs. */
module WorkerPoolProofs {
  import opened Lists
  import opened Coordination
  import opened GlobalTasks
  import opened WorkerPool
  import Runs

  // ----- counting tasks over all workers

  lemma AddBoth(a: multiset<Task>, b: multiset<Task>, c: multiset<Task>, d: multiset<Task>, e: multiset<Task>)
    requires a + c == b + d
    ensures (a + e) + c == (b + e) + d
  {
    assert (a + e) + c == (a + c) + e;
    assert (b + e) + d == (b + d) + e;
  }

  lemma Cancel(a: multiset<Task>, b: multiset<Task>, c: multiset<Task>)
    requires a + c == b + c
    ensures a == b
  {
    forall t ensures a[t] == b[t] {
      assert (a + c)[t] == (b + c)[t];
    }
  }

  lemma {:induction false} HeldUpdate(ws: seq<WorkerState>, w: Id, r: WorkerState)
    requires 0 <= w < |ws|
    ensures HeldByAll(ws[w := r]) + Held(ws[w]) == HeldByAll(ws) + Held(r)
  {
    var n := |ws| - 1;
    var ws' := ws[w := r];
    if w < n {
      HeldUpdate(ws[..n], w, r);
      assert ws'[..n] == ws[..n][w := r];
      AddBoth(HeldByAll(ws'[..n]), HeldByAll(ws[..n]), Held(ws[w]), Held(r), Held(ws[n]));
    } else {
      assert ws'[..n] == ws[..n];
      AddBoth(HeldByAll(ws[..n]), HeldByAll(ws[..n]), multiset{}, multiset{}, Held(r) + Held(ws[w]));
    }
  }

  lemma {:induction false} HeldIncludes(ws: seq<WorkerState>, w: Id)
    requires 0 <= w < |ws|
    ensures Held(ws[w]) <= HeldByAll(ws)
  {
    var n := |ws| - 1;
    if w < n {
      HeldIncludes(ws[..n], w);
    }
  }

  lemma {:induction false} HeldByNobody(ws: seq<WorkerState>)
    requires forall w :: 0 <= w < |ws| ==> Held(ws[w]) == multiset{}
    ensures HeldByAll(ws) == multiset{}
  {
    if ws != [] {
      HeldByNobody(ws[..|ws| - 1]);
    }
  }

  // ----- a worker's own move: only its record changes

  /** The new record is in order, holds the same tasks, is linked as before, and is at least as committed to
      looking at the global queue. */
  ghost predicate QuietMove(s: State, w: Id, r: WorkerState) {
    && 0 <= w < |s.workers|
    && WorkerOk(r)
    && VictimOk(s, w, r.pc)
    && Held(r) == Held(s.workers[w])
    && (Unlinked(r.pc) <==> Unlinked(s.workers[w].pc))
    && (Eager(s.workers[w].pc) ==> Eager(r.pc))
    && (s.workers[w].pc.Notified? ==> r.pc.Notified?)
    && (Drained(s.workers[w].pc) ==> Drained(r.pc) || Eager(r.pc))
  }

  ghost predicate VictimOk(s: State, w: Id, pc: Pc) {
    && (pc.Measure? ==> 0 <= pc.victim < |s.workers| && pc.victim != w)
    && (pc.Take? ==> 0 <= pc.victim < |s.workers| && pc.victim != w)
  }

  lemma QuietLocal(s: State, w: Id, r: WorkerState)
    requires LocalInv(s) && QuietMove(s, w, r)
    ensures LocalInv(Put(s, w, r))
  {
  }

  lemma QuietLists(s: State, w: Id, r: WorkerState)
    requires ListsInv(s) && QuietMove(s, w, r)
    ensures ListsInv(Put(s, w, r))
  {
    var s' := Put(s, w, r);
    assert forall v :: Linked(s', v) <==> Linked(s, v);
  }

  lemma QuietWakeup(s: State, w: Id, r: WorkerState)
    requires WakeupInv(s) && QuietMove(s, w, r)
    ensures WakeupInv(Put(s, w, r))
  {
    var s' := Put(s, w, r);
    if s'.queue != [] && OutsidersQuiet(s') {
      assert OutsidersQuiet(s);
      var v :| WillGrab(s, v);
      assert WillGrab(s', v);
    }
  }

  lemma QuietPusher(s: State, w: Id, r: WorkerState)
    requires PusherInv(s) && QuietMove(s, w, r)
    ensures PusherInv(Put(s, w, r))
  {
  }

  lemma QuietConservation(s: State, w: Id, r: WorkerState)
    requires ConservationInv(s) && 0 <= w < |s.workers| && Held(r) == Held(s.workers[w])
    ensures ConservationInv(Put(s, w, r))
  {
    HeldUpdate(s.workers, w, r);
    Cancel(HeldByAll(s.workers[w := r]), HeldByAll(s.workers), Held(r));
  }

  lemma QuietKeeps(s: State, w: Id, r: WorkerState)
    requires Inv(s) && QuietMove(s, w, r)
    ensures Inv(Put(s, w, r))
  {
    QuietLocal(s, w, r);
    QuietLists(s, w, r);
    QuietWakeup(s, w, r);
    QuietPusher(s, w, r);
    QuietConservation(s, w, r);
  }

  // ----- what a step that leaves part of the state alone keeps

  /** Nobody was linked or unlinked, and nobody eager stopped being eager. */
  ghost predicate SameStanding(s: State, s': State) {
    && |s'.workers| == |s.workers|
    && (forall w :: 0 <= w < |s.workers| ==>
          && (Unlinked(s'.workers[w].pc) <==> Unlinked(s.workers[w].pc))
          && (Eager(s.workers[w].pc) ==> Eager(s'.workers[w].pc)))
  }

  ghost predicate SameLists(s: State, s': State) {
    s'.active == s.active && s'.passive == s.passive && s'.workersBusy == s.workersBusy && s'.flags == s.flags
  }

  ghost predicate SameWaiters(s: State, s': State) {
    && s'.pusher == s.pusher && s'.root == s.root && s'.outside == s.outside && s'.returned == s.returned
    && forall t :: t in s'.queue ==> t in s.queue
  }

  lemma ListsFrame(s: State, s': State)
    requires ListsInv(s) && SameLists(s, s') && SameStanding(s, s')
    ensures ListsInv(s')
  {
    assert forall w :: Linked(s', w) <==> Linked(s, w);
  }

  lemma WakeupByWorker(s': State, w: Id)
    requires WillGrab(s', w)
    ensures WakeupInv(s')
  {
  }

  lemma PusherFrame(s: State, s': State)
    requires PusherInv(s) && SameWaiters(s, s') && SameStanding(s, s')
    ensures PusherInv(s')
  {
  }

  lemma WaiterFrame(s: State, s': State)
    requires WaiterInv(s) && SameWaiters(s, s')
    ensures WaiterInv(s')
  {
  }

  /** All the invariants but the local and the conservation one, for a step after which worker w is committed. */
  lemma CommittedFrame(s: State, s': State, w: Id)
    requires ListsInv(s) && PusherInv(s) && WaiterInv(s)
    requires SameLists(s, s') && SameWaiters(s, s') && SameStanding(s, s') && WillGrab(s', w)
    ensures ListsInv(s') && PusherInv(s') && WaiterInv(s') && WakeupInv(s')
  {
    ListsFrame(s, s');
    PusherFrame(s, s');
    WaiterFrame(s, s');
    WakeupByWorker(s', w);
  }

  // ----- the other shared sections, one at a time

  lemma CountHolds(r: WorkerState)
    requires r.pc.Top?
    ensures Held(DoCount(r)) == Held(r)
  {
  }

  lemma CountQuiet(s: State, w: Id)
    requires LocalInv(s) && At(s, w, Top)
    ensures QuietMove(s, w, DoCount(s.workers[w]))
  {
    CountHolds(s.workers[w]);
  }

  lemma CountKeeps(s: State, w: Id)
    requires Inv(s) && At(s, w, Top)
    ensures Inv(Put(s, w, DoCount(s.workers[w])))
  {
    CountQuiet(s, w);
    QuietKeeps(s, w, DoCount(s.workers[w]));
  }

  lemma TryLifoKeeps(s: State, w: Id)
    requires Inv(s) && At(s, w, TakeLifo)
    ensures Inv(Put(s, w, DoTryLifo(s.workers[w])))
  {
    QuietKeeps(s, w, DoTryLifo(s.workers[w]));
  }

  lemma HeadOut(local: seq<Task>)
    requires local != []
    ensures multiset(local) == multiset(local[1..]) + multiset{local[0]}
  {
    assert local == [local[0]] + local[1..];
  }

  lemma Aside(rest: multiset<Task>, task: multiset<Task>, slot: multiset<Task>)
    ensures (rest + task) + slot + multiset{} == rest + slot + task
  {
  }

  // the parts of Held besides the queue

  ghost function Slot(r: WorkerState): multiset<Task> {
    if r.lifo.Some? then multiset{r.lifo.value} else multiset{}
  }

  ghost function Hands(pc: Pc): multiset<Task> {
    if pc.Fill? then multiset(pc.buffer) else if pc.Run? || pc.SlowPushed? then multiset{pc.task} else multiset{}
  }

  lemma PopHolds(r: WorkerState)
    requires r.pc.PopLocal?
    ensures Held(DoTryPop(r)) == Held(r)
  {
    if r.local != [] {
      HeadOut(r.local);
      Aside(multiset(r.local[1..]), multiset{r.local[0]}, Slot(r));
    }
  }

  lemma PopQuiet(s: State, w: Id)
    requires LocalInv(s) && At(s, w, PopLocal)
    ensures QuietMove(s, w, DoTryPop(s.workers[w]))
  {
    PopHolds(s.workers[w]);
  }

  lemma TryPopKeeps(s: State, w: Id)
    requires Inv(s) && At(s, w, PopLocal)
    ensures Inv(Put(s, w, DoTryPop(s.workers[w])))
  {
    PopQuiet(s, w);
    QuietKeeps(s, w, DoTryPop(s.workers[w]));
  }

  lemma PushManyKeeps(s: State, w: Id)
    requires Inv(s) && 0 <= w < |s.workers| && s.workers[w].pc.Fill? && s.workers[w].pc.buffer != []
    ensures Inv(Put(s, w, DoPushMany(s.workers[w])))
  {
    var buffer := s.workers[w].pc.buffer;
    assert buffer == [buffer[0]] + buffer[1..];
    QuietKeeps(s, w, DoPushMany(s.workers[w]));
  }

  lemma GoKeeps(s: State, w: Id, pc: Pc)
    requires Inv(s) && 0 <= w < |s.workers| && QuietMove(s, w, s.workers[w].(pc := pc))
    ensures Inv(Go(s, w, pc))
  {
    QuietKeeps(s, w, s.workers[w].(pc := pc));
  }

  lemma TestImpudenceKeeps(s: State, w: Id)
    requires Inv(s) && At(s, w, StealTest)
    ensures Inv(Go(s, w, if s.flags[w] == Active then Steal(0) else LifoAgain))
  {
    if s.flags[w] == Active {
      GoKeeps(s, w, Steal(0));
    } else {
      GoKeeps(s, w, LifoAgain);
    }
  }

  lemma AskVictimKeeps(s: State, w: Id, seed: nat)
    requires Inv(s) && CanAskVictim(s, w)
    ensures Inv(Go(s, w, DoAskVictim(s, w, seed)))
  {
    var line := s.active + s.passive;
    var victim := line[seed % |line|];
    assert victim in line;
    assert Linked(s, victim);
    GoKeeps(s, w, DoAskVictim(s, w, seed));
  }

  lemma GiveUpKeeps(s: State, w: Id)
    requires Inv(s) && CanGiveUp(s, w)
    ensures Inv(Go(s, w, LifoAgain))
  {
    GoKeeps(s, w, LifoAgain);
  }

  lemma LowSizeKeeps(s: State, w: Id, size: nat)
    requires Inv(s) && CanLowSize(s, w, size)
    ensures Inv(Go(s, w, DoLowSize(s.workers[w].pc, size)))
  {
    GoKeeps(s, w, DoLowSize(s.workers[w].pc, size));
  }

  lemma RetestLifoKeeps(s: State, w: Id)
    requires Inv(s) && At(s, w, LifoAgain)
    ensures Inv(Go(s, w, if s.workers[w].lifo.Some? then Top else Park))
  {
    GoKeeps(s, w, if s.workers[w].lifo.Some? then Top else Park);
  }

  /** Waking a sleeper, by notification or spuriously, only makes it more committed. */
  lemma WakeKeeps(s: State, w: Id)
    requires Inv(s) && At(s, w, Asleep)
    ensures Inv(Go(s, w, Notified))
  {
    GoKeeps(s, w, Notified);
  }

  lemma NotifyKeeps(s: State, woken: Option<Id>)
    requires Inv(s) && CanNotify(s, woken)
    ensures Inv(Notify(s, woken))
  {
    if woken.Some? {
      WakeKeeps(s, woken.value);
    }
  }

  lemma NotifyFrame(s: State, woken: Option<Id>, w: Id)
    requires CanNotify(s, woken) && 0 <= w < |s.workers| && s.workers[w].pc != Asleep
    ensures |Notify(s, woken).workers| == |s.workers| && Notify(s, woken).workers[w] == s.workers[w]
  {
  }

  lemma LeaveNudge(s: State, w: Id)
    requires Inv(s) && At(s, w, Nudge)
    ensures Inv(Go(s, w, TakeLifo))
  {
    GoKeeps(s, w, TakeLifo);
  }

  lemma NudgeKeeps(s: State, w: Id, woken: Option<Id>)
    requires Inv(s) && CanNudge(s, w, woken)
    ensures Inv(DoNudge(s, w, woken))
  {
    NotifyKeeps(s, woken);
    NotifyFrame(s, woken, w);
    LeaveNudge(Notify(s, woken), w);
  }

  /** Forbidding sleep never hurts. */
  lemma ProhibitKeeps(s: State)
    requires Inv(s)
    ensures Inv(Prohibit(s))
  {
    var s' := Prohibit(s);
    assert forall v :: Linked(s', v) <==> Linked(s, v);
    if s'.queue != [] && OutsidersQuiet(s') {
      assert OutsidersQuiet(s);
      var v :| WillGrab(s, v);
      assert WillGrab(s', v);
    }
  }

  lemma BackToTask(s: State, w: Id, task: Task)
    requires Inv(s) && At(s, w, SlowPushed(task))
    ensures Inv(Go(s, w, Run(task)))
  {
    GoKeeps(s, w, Run(task));
  }

  lemma ProhibitFromWorkerKeeps(s: State, w: Id, woken: Option<Id>)
    requires Inv(s) && CanProhibit(s, w, woken)
    ensures Inv(DoProhibit(s, w, woken))
  {
    var p := Prohibit(s);
    ProhibitKeeps(s);
    NotifyKeeps(p, woken);
    NotifyFrame(p, woken, w);
    BackToTask(Notify(p, woken), w, s.workers[w].pc.task);
  }

  /** Allowing sleep is harmless because the worker that allows it has yet to grab again. */
  lemma PermitKeeps(s: State, w: Id)
    requires Inv(s) && At(s, w, Allow)
    ensures Inv(PermitParking(s))
  {
    var s' := PermitParking(s);
    assert forall v :: Linked(s', v) <==> Linked(s, v);
    assert WillGrab(s', w);
  }

  lemma LeaveAllow(s: State, w: Id)
    requires Inv(s) && At(s, w, Allow)
    ensures Inv(Go(s, w, SecondGrab))
  {
    GoKeeps(s, w, SecondGrab);
  }

  lemma AllowParkingKeeps(s: State, w: Id)
    requires Inv(s) && At(s, w, Allow)
    ensures Inv(Go(PermitParking(s), w, SecondGrab))
  {
    PermitKeeps(s, w);
    LeaveAllow(PermitParking(s), w);
  }

  // ----- grabbing from the global queue

  /** With the global queue empty a worker may become drained. */
  lemma DrainKeeps(s: State, w: Id)
    requires Inv(s) && At(s, w, SecondGrab) && s.queue == []
    ensures Inv(Go(s, w, StealTest))
  {
    DrainLocal(s, w);
    QuietConservation(s, w, s.workers[w].(pc := StealTest));
  }

  lemma DrainLocal(s: State, w: Id)
    requires LocalInv(s) && ListsInv(s) && At(s, w, SecondGrab)
    ensures LocalInv(Go(s, w, StealTest)) && ListsInv(Go(s, w, StealTest))
  {
    var s' := Go(s, w, StealTest);
    assert forall v :: Linked(s', v) <==> Linked(s, v);
  }

  lemma TakeShareLocal(s: State, w: Id, from: Pc, otherwise: Pc)
    requires LocalInv(s) && (from == FirstGrab || from == SecondGrab) && At(s, w, from) && s.queue != []
    ensures LocalInv(GrabShare(s, w, from, otherwise))
    ensures SameStanding(s, GrabShare(s, w, from, otherwise))
    ensures GrabShare(s, w, from, otherwise).workers == s.workers[w := s.workers[w].(pc := Fill(s.queue[..QueueShare(s)]))]
  {
    ShareZero(LOCAL_CAPACITY / 2, |s.queue|, |s.workers|);
  }

  lemma SplitHeld(first: multiset<Task>, rest: multiset<Task>, held: multiset<Task>, held': multiset<Task>, finished: multiset<Task>)
    requires held' == held + first
    ensures rest + held' + finished == (first + rest) + held + finished
  {
  }

  lemma SharePut(ws: seq<WorkerState>, w: Id, r: WorkerState, first: multiset<Task>)
    requires 0 <= w < |ws| && Held(r) == Held(ws[w]) + first
    ensures HeldByAll(ws[w := r]) == HeldByAll(ws) + first
  {
    HeldUpdate(ws, w, r);
    Gained(HeldByAll(ws), HeldByAll(ws[w := r]), Held(ws[w]), first);
  }

  lemma Gained(a: multiset<Task>, b: multiset<Task>, h: multiset<Task>, m: multiset<Task>)
    requires b + h == a + (h + m)
    ensures b == a + m
  {
    assert a + (h + m) == (a + m) + h;
    Cancel(b, a + m, h);
  }

  lemma ShareConservation(s: State, w: Id, k: nat, r: WorkerState)
    requires ConservationInv(s) && 0 <= w < |s.workers| && k <= |s.queue|
    requires Held(r) == Held(s.workers[w]) + multiset(s.queue[..k])
    ensures multiset(s.queue[k..]) + HeldByAll(s.workers[w := r]) + Finished(s) == multiset(s.root.Keys)
  {
    var first := multiset(s.queue[..k]);
    SharePut(s.workers, w, r, first);
    assert s.queue == s.queue[..k] + s.queue[k..];
    SplitHeld(first, multiset(s.queue[k..]), HeldByAll(s.workers), HeldByAll(s.workers[w := r]), Finished(s));
  }

  lemma TakeShareStanding(s: State, w: Id, from: Pc, otherwise: Pc)
    requires LocalInv(s) && (from == FirstGrab || from == SecondGrab) && At(s, w, from) && s.queue != []
    ensures var s' := GrabShare(s, w, from, otherwise); SameLists(s, s') && SameWaiters(s, s') && WillGrab(s', w)
  {
    ShareZero(LOCAL_CAPACITY / 2, |s.queue|, |s.workers|);
  }

  lemma TakeShareConserves(s: State, w: Id, from: Pc, otherwise: Pc)
    requires LocalInv(s) && ConservationInv(s) && (from == FirstGrab || from == SecondGrab) && At(s, w, from)
    requires s.queue != []
    ensures ConservationInv(GrabShare(s, w, from, otherwise))
  {
    ShareZero(LOCAL_CAPACITY / 2, |s.queue|, |s.workers|);
    ShareConservation(s, w, QueueShare(s), s.workers[w].(pc := Fill(s.queue[..QueueShare(s)])));
  }

  lemma TakeShareKeeps(s: State, w: Id, from: Pc, otherwise: Pc)
    requires Inv(s) && (from == FirstGrab || from == SecondGrab) && At(s, w, from) && s.queue != []
    ensures Inv(GrabShare(s, w, from, otherwise))
  {
    TakeShareLocal(s, w, from, otherwise);
    TakeShareStanding(s, w, from, otherwise);
    TakeShareConserves(s, w, from, otherwise);
    CommittedFrame(s, GrabShare(s, w, from, otherwise), w);
  }

  lemma GrabKeeps(s: State, w: Id, from: Pc, otherwise: Pc)
    requires Inv(s) && CanGrab(s, w, from)
    requires (from == FirstGrab && otherwise == Allow) || (from == SecondGrab && otherwise == StealTest)
    ensures Inv(GrabShare(s, w, from, otherwise))
  {
    ShareZero(LOCAL_CAPACITY / 2, |s.queue|, |s.workers|);
    if s.queue != [] {
      TakeShareKeeps(s, w, from, otherwise);
    } else if from == FirstGrab {
      GoKeeps(s, w, Allow);
    } else {
      DrainKeeps(s, w);
    }
  }

  // ----- stealing

  lemma TakeNothingKeeps(s: State, w: Id)
    requires Inv(s) && 0 <= w < |s.workers| && s.workers[w].pc.Take?
    ensures Inv(Go(s, w, Steal(s.workers[w].pc.tries + 1)))
  {
    GoKeeps(s, w, Steal(s.workers[w].pc.tries + 1));
  }

  lemma TakeNothingGoes(s: State, w: Id)
    requires CanTake(s, w, 0)
    ensures DoTake(s, w, 0) == Go(s, w, Steal(s.workers[w].pc.tries + 1))
  {
  }

  lemma MoveBetween(a: multiset<Task>, b: multiset<Task>, c: multiset<Task>,
                    h: multiset<Task>, q: multiset<Task>, moved: multiset<Task>)
    requires b + h == a + (h + moved)
    requires c + (q + moved) == b + q
    ensures c == a
  {
    forall t ensures c[t] == a[t] {
      assert (b + h)[t] == (a + (h + moved))[t];
      assert (c + (q + moved))[t] == (b + q)[t];
    }
  }

  lemma StolenConservation(ws: seq<WorkerState>, w: Id, r: WorkerState, v: Id, q: WorkerState, moved: multiset<Task>)
    requires 0 <= w < |ws| && 0 <= v < |ws| && v != w
    requires Held(r) == Held(ws[w]) + moved && Held(ws[v]) == Held(q) + moved
    ensures HeldByAll(ws[w := r][v := q]) == HeldByAll(ws)
  {
    HeldUpdate(ws, w, r);
    HeldUpdate(ws[w := r], v, q);
    MoveBetween(HeldByAll(ws), HeldByAll(ws[w := r]), HeldByAll(ws[w := r][v := q]), Held(ws[w]), Held(q), moved);
  }

  lemma StealMoves(s: State, w: Id, taken: nat)
    requires CanTake(s, w, taken) && taken > 0
    ensures var v := s.workers[w].pc.victim;
            var batch := s.workers[v].local[..taken];
            && DoTake(s, w, taken).workers == s.workers[w := s.workers[w].(pc := Fill(batch))]
                                                       [v := s.workers[v].(local := s.workers[v].local[taken..])]
            && DoTake(s, w, taken) == s.(workers := DoTake(s, w, taken).workers)
  {
  }

  lemma StealLocal(s: State, w: Id, taken: nat)
    requires LocalInv(s) && CanTake(s, w, taken) && taken > 0
    ensures LocalInv(DoTake(s, w, taken))
  {
    StealMoves(s, w, taken);
  }

  lemma StealStanding(s: State, w: Id, taken: nat)
    requires CanTake(s, w, taken) && taken > 0
    ensures SameStanding(s, DoTake(s, w, taken)) && WillGrab(DoTake(s, w, taken), w)
  {
    StealMoves(s, w, taken);
  }

  lemma FillHolds(r: WorkerState, batch: seq<Task>)
    requires r.pc.Take?
    ensures Held(r.(pc := Fill(batch))) == Held(r) + multiset(batch)
  {
  }

  lemma LessHeld(r: WorkerState, taken: nat)
    requires taken <= |r.local|
    ensures Held(r) == Held(r.(local := r.local[taken..])) + multiset(r.local[..taken])
  {
    assert r.local == r.local[..taken] + r.local[taken..];
  }

  lemma StealConservation(s: State, w: Id, taken: nat)
    requires ConservationInv(s) && CanTake(s, w, taken) && taken > 0
    ensures ConservationInv(DoTake(s, w, taken))
  {
    var v := s.workers[w].pc.victim;
    var batch := s.workers[v].local[..taken];
    StealMoves(s, w, taken);
    FillHolds(s.workers[w], batch);
    LessHeld(s.workers[v], taken);
    StolenConservation(s.workers, w, s.workers[w].(pc := Fill(batch)),
                       v, s.workers[v].(local := s.workers[v].local[taken..]), multiset(batch));
  }

  lemma StealKeeps(s: State, w: Id, taken: nat)
    requires Inv(s) && CanTake(s, w, taken) && taken > 0
    ensures Inv(DoTake(s, w, taken))
  {
    StealLocal(s, w, taken);
    StealMoves(s, w, taken);
    StealStanding(s, w, taken);
    CommittedFrame(s, DoTake(s, w, taken), w);
    StealConservation(s, w, taken);
  }

  // ----- parking

  lemma ParkLists(s: State, w: Id)
    requires ListsInv(s) && CanPark(s, w) && s.permission == Allowed
    ensures ListsInv(DoPark(s, w))
  {
    var s' := DoPark(s, w);
    assert Linked(s, w);
    NoDupSplit(s.active, s.passive);
    WithoutContents(s.active, w);
    WithoutContents(s.passive, w);
    forall v ensures v in s'.active <==> v in s.active && v != w
    {
      WithoutMember(s.active, w, v);
    }
    forall v ensures v in s'.passive <==> v in s.passive && v != w
    {
      WithoutMember(s.passive, w, v);
    }
    NoDupSplit(s'.active, s'.passive);
    assert forall v :: Linked(s', v) <==> Linked(s, v) && v != w;
  }

  lemma ParkWakeup(s: State, w: Id)
    requires WakeupInv(s) && CanPark(s, w) && s.permission == Allowed
    ensures WakeupInv(DoPark(s, w))
  {
    var s' := DoPark(s, w);
    if s'.queue != [] && OutsidersQuiet(s') {
      assert OutsidersQuiet(s);
      var v :| WillGrab(s, v);
      assert WillGrab(s', v);
    }
  }

  lemma ParkLocal(s: State, w: Id)
    requires LocalInv(s) && CanPark(s, w) && s.permission == Allowed
    ensures LocalInv(DoPark(s, w))
  {
  }

  lemma ParkRest(s: State, w: Id)
    requires PusherInv(s) && WaiterInv(s) && ConservationInv(s)
    requires CanPark(s, w) && s.permission == Allowed
    ensures PusherInv(DoPark(s, w)) && WaiterInv(DoPark(s, w)) && ConservationInv(DoPark(s, w))
  {
    QuietConservation(s, w, s.workers[w].(pc := Asleep));
    WaiterFrame(s, DoPark(s, w));
  }

  lemma ParkKeeps(s: State, w: Id)
    requires Inv(s) && CanPark(s, w)
    ensures Inv(DoPark(s, w))
  {
    if s.permission != Allowed {
      GoKeeps(s, w, Top);
    } else {
      ParkLists(s, w);
      ParkWakeup(s, w);
      ParkLocal(s, w);
      ParkRest(s, w);
    }
  }

  /** One worker enlisting: everybody linked before stays linked, the newcomer joins, and the halves balance. */
  lemma EnlistContents(active: seq<Id>, passive: seq<Id>, w: Id)
    requires NoDup(active + passive) && w !in active && w !in passive
    ensures var (a, p) := Rebalanced([w] + active, passive);
            && NoDup(a + p)
            && |a| == (|active| + |passive| + 2) / 2 && |p| == (|active| + |passive| + 1) / 2
            && (forall v :: v in a || v in p <==> v == w || v in active || v in passive)
            && (forall v :: v in a ==> v !in p)
  {
    var line := [w] + active;
    NoDupSplit([w], active + passive);
    assert line + passive == [w] + (active + passive);
    RebalancedContents(line, passive);
    var (a, p) := Rebalanced(line, passive);
    NoDupSplit(a, p);
    forall v ensures v in a || v in p <==> v == w || v in active || v in passive {
      RebalancedMembers(line, passive, v);
    }
  }

  lemma EnlistLists(s: State, w: Id)
    requires ListsInv(s) && At(s, w, Notified)
    ensures ListsInv(Go(Enlist(s, w), w, Top))
  {
    var s' := Go(Enlist(s, w), w, Top);
    assert !Linked(s, w);
    EnlistContents(s.active, s.passive, w);
    assert forall v :: Linked(s', v) <==> v == w || Linked(s, v);
  }

  lemma ReenlistLocal(s: State, w: Id)
    requires LocalInv(s) && PusherInv(s) && At(s, w, Notified)
    ensures LocalInv(Go(Enlist(s, w), w, Top)) && PusherInv(Go(Enlist(s, w), w, Top)) 
  {
  }

  lemma ReenlistRest(s: State, w: Id)
    requires WaiterInv(s) && ConservationInv(s) && At(s, w, Notified)
    ensures var s' := Go(Enlist(s, w), w, Top);
            WaiterInv(s') && ConservationInv(s') && WakeupInv(s')
  {
    var s' := Go(Enlist(s, w), w, Top);
    WakeupByWorker(s', w);
    WaiterFrame(s, s');
    QuietConservation(s, w, s.workers[w].(pc := Top));
  }

  lemma ReenlistKeeps(s: State, w: Id)
    requires Inv(s) && At(s, w, Notified)
    ensures Inv(Go(Enlist(s, w), w, Top))
  {
    EnlistLists(s, w);
    ReenlistLocal(s, w);
    ReenlistRest(s, w);
  }

  // ----- submitting and finishing

  lemma RootGrows(root: map<Task, Task>, t: Task, r: Task)
    requires t !in root
    ensures multiset(root[t := r].Keys) == multiset(root.Keys) + multiset{t}
  {
    assert root[t := r].Keys == root.Keys + {t};
  }

  lemma NewTaskConservation(s: State, w: Id, r: WorkerState, task: Task, root: Task)
    requires ConservationInv(s) && 0 <= w < |s.workers| && task !in s.root
    requires Held(r) == Held(s.workers[w]) + multiset{task}
    ensures multiset(s.queue) + HeldByAll(s.workers[w := r]) + Finished(s) == multiset(s.root[task := root].Keys)
  {
    RootGrows(s.root, task, root);
    SharePut(s.workers, w, r, multiset{task});
  }

  lemma SpawnHereShape(s: State, w: Id, task: Task, hint: Hint)
    requires CanSpawn(s, w, task, hint) && hint != Slow && WorkerOk(s.workers[w])
    ensures var s' := DoSpawn(s, w, task, hint);
            && s'.workers == s.workers[w := s'.workers[w]]
            && s'.workers[w].pc == s.workers[w].pc
            && WorkerOk(s'.workers[w])
  {
  }

  lemma PushHolds(r: WorkerState, task: Task)
    ensures Held(r.(local := r.local + [task])) == Held(r) + multiset{task}
  {
    assert multiset(r.local + [task]) == multiset(r.local) + multiset{task};
    Swapped(multiset(r.local), multiset{task}, Slot(r), Hands(r.pc));
  }

  lemma Swapped(local: multiset<Task>, task: multiset<Task>, slot: multiset<Task>, hands: multiset<Task>)
    ensures (local + task) + slot + hands == (local + slot + hands) + task
  {
  }

  lemma SwapHolds(r: WorkerState, task: Task)
    ensures Held(r.(lifo := Some(task))) + Slot(r) == Held(r) + multiset{task}
  {
    Exchanged(multiset(r.local), multiset{task}, Slot(r), Hands(r.pc));
  }

  lemma Exchanged(local: multiset<Task>, task: multiset<Task>, slot: multiset<Task>, hands: multiset<Task>)
    ensures (local + task + hands) + slot == (local + slot + hands) + task
  {
  }

  lemma NextHolds(r: WorkerState, task: Task)
    ensures r.lifo.None? ==> Held(r.(lifo := Some(task))) == Held(r) + multiset{task}
    ensures r.lifo.Some? ==> Held(r.(local := r.local + [r.lifo.value], lifo := Some(task))) == Held(r) + multiset{task}
  {
    SwapHolds(r, task);
    if r.lifo.Some? {
      PushHolds(r.(lifo := Some(task)), r.lifo.value);
    }
  }

  lemma SpawnHereHolds(s: State, w: Id, task: Task, hint: Hint)
    requires CanSpawn(s, w, task, hint) && hint != Slow
    ensures Held(DoSpawn(s, w, task, hint).workers[w]) == Held(s.workers[w]) + multiset{task}
  {
    var r := s.workers[w];
    if hint == UpToYou {
      PushHolds(r, task);
    } else {
      NextHolds(r, task);
    }
  }

  lemma SpawnHereLocal(s: State, w: Id, task: Task, hint: Hint)
    requires LocalInv(s) && CanSpawn(s, w, task, hint) && hint != Slow
    ensures LocalInv(DoSpawn(s, w, task, hint))
  {
    SpawnHereShape(s, w, task, hint);
  }

  lemma SpawnHereStanding(s: State, w: Id, task: Task, hint: Hint)
    requires LocalInv(s) && CanSpawn(s, w, task, hint) && hint != Slow
    ensures SameStanding(s, DoSpawn(s, w, task, hint)) && WillGrab(DoSpawn(s, w, task, hint), w)
  {
    SpawnHereShape(s, w, task, hint);
  }

  /** Only the spawning worker and the history change. */
  lemma SpawnHereFrame(s: State, w: Id, task: Task, hint: Hint)
    requires CanSpawn(s, w, task, hint) && hint != Slow
    ensures var s' := DoSpawn(s, w, task, hint);
            s' == s.(workers := s'.workers, root := s.root[task := s.root[s.workers[w].pc.task]])
  {
  }

  lemma SpawnHereLists(s: State, w: Id, task: Task, hint: Hint)
    requires ListsInv(s) && CanSpawn(s, w, task, hint) && hint != Slow && SameStanding(s, DoSpawn(s, w, task, hint))
    ensures ListsInv(DoSpawn(s, w, task, hint))
  {
    SpawnHereFrame(s, w, task, hint);
    ListsFrame(s, DoSpawn(s, w, task, hint));
  }

  /** Submitting a task that is not in the global queue leaves those who wait for queued tasks as they are. */
  lemma RootFrame(s: State, s': State, task: Task, root: Task)
    requires PusherInv(s) && WaiterInv(s) && task !in s.queue && SameStanding(s, s')
    requires s' == s.(workers := s'.workers, root := s.root[task := root])
    ensures PusherInv(s') && WaiterInv(s')
  {
  }

  lemma SpawnHereRest(s: State, w: Id, task: Task, hint: Hint)
    requires PusherInv(s) && WaiterInv(s) && CanSpawn(s, w, task, hint) && hint != Slow
    requires task !in s.queue && SameStanding(s, DoSpawn(s, w, task, hint))
    ensures PusherInv(DoSpawn(s, w, task, hint)) && WaiterInv(DoSpawn(s, w, task, hint))
  {
    SpawnHereFrame(s, w, task, hint);
    RootFrame(s, DoSpawn(s, w, task, hint), task, s.root[s.workers[w].pc.task]);
  }

  lemma SpawnHereConservation(s: State, w: Id, task: Task, hint: Hint)
    requires LocalInv(s) && ConservationInv(s) && CanSpawn(s, w, task, hint) && hint != Slow
    ensures ConservationInv(DoSpawn(s, w, task, hint))
  {
    SpawnHereShape(s, w, task, hint);
    SpawnHereHolds(s, w, task, hint);
    NewTaskConservation(s, w, DoSpawn(s, w, task, hint).workers[w], task, s.root[s.workers[w].pc.task]);
  }

  lemma SpawnHereKeeps(s: State, w: Id, task: Task, hint: Hint)
    requires Inv(s) && CanSpawn(s, w, task, hint) && hint != Slow
    ensures Inv(DoSpawn(s, w, task, hint))
  {
    FreshNotQueued(s, task);
    SpawnHereLocal(s, w, task, hint);
    SpawnHereStanding(s, w, task, hint);
    SpawnHereLists(s, w, task, hint);
    SpawnHereRest(s, w, task, hint);
    SpawnHereConservation(s, w, task, hint);
    WakeupByWorker(DoSpawn(s, w, task, hint), w);
  }

  /** A task that was never submitted is nowhere. */
  lemma FreshNotQueued(s: State, task: Task)
    requires ConservationInv(s) && task !in s.root
    ensures task !in s.queue
  {
    var all := multiset(s.queue) + HeldByAll(s.workers) + Finished(s);
    assert all[task] == multiset(s.root.Keys)[task] == 0;
    assert all[task] == multiset(s.queue)[task] + HeldByAll(s.workers)[task] + Finished(s)[task];
    assert task !in multiset(s.queue);
  }

  lemma SpawnSlowConservation(s: State, w: Id, task: Task)
    requires ConservationInv(s) && CanSpawn(s, w, task, Slow)
    ensures ConservationInv(DoSpawn(s, w, task, Slow))
  {
    RootGrows(s.root, task, s.root[s.workers[w].pc.task]);
    QuietConservation(s, w, s.workers[w].(pc := SlowPushed(s.workers[w].pc.task)));
  }

  lemma SpawnSlowPusher(s: State, w: Id, task: Task)
    requires PusherInv(s) && WaiterInv(s) && CanSpawn(s, w, task, Slow) && task !in s.queue
    ensures PusherInv(DoSpawn(s, w, task, Slow)) && WaiterInv(DoSpawn(s, w, task, Slow))
  {
  }

  lemma SpawnSlowLocal(s: State, w: Id, task: Task)
    requires LocalInv(s) && CanSpawn(s, w, task, Slow)
    ensures LocalInv(DoSpawn(s, w, task, Slow))
    ensures SameStanding(s, DoSpawn(s, w, task, Slow)) && WillGrab(DoSpawn(s, w, task, Slow), w)
  {
  }

  lemma SpawnSlowKeeps(s: State, w: Id, task: Task)
    requires Inv(s) && CanSpawn(s, w, task, Slow)
    ensures Inv(DoSpawn(s, w, task, Slow))
  {
    FreshNotQueued(s, task);
    SpawnSlowLocal(s, w, task);
    SpawnSlowConservation(s, w, task);
    SpawnSlowPusher(s, w, task);
    ListsFrame(s, DoSpawn(s, w, task, Slow));
    WakeupByWorker(DoSpawn(s, w, task, Slow), w);
  }

  lemma Released(a: multiset<Task>, b: multiset<Task>, h: multiset<Task>, m: multiset<Task>)
    requires b + (h + m) == a + h
    ensures b + m == a
  {
    assert (b + m) + h == b + (h + m);
    Cancel(b + m, a, h);
  }

  lemma FinishConservation(s: State, w: Id, threw: bool)
    requires ConservationInv(s) && Running(s, w)
    ensures ConservationInv(DoFinish(s, w, threw))
  {
    var r := s.workers[w].(pc := Top);
    var task := multiset{s.workers[w].pc.task};
    var s' := DoFinish(s, w, threw);
    HeldUpdate(s.workers, w, r);
    TaskHeld(s.workers[w]);
    Released(HeldByAll(s.workers), HeldByAll(s.workers[w := r]), Held(r), task);
    OneMoreFinished(s, w, threw);
    Regroup(multiset(s.queue), HeldByAll(s'.workers), Finished(s), task);
  }

  lemma TaskHeld(r: WorkerState)
    requires r.pc.Run?
    ensures Held(r) == Held(r.(pc := Top)) + multiset{r.pc.task}
  {
  }

  lemma OneMoreFinished(s: State, w: Id, threw: bool)
    requires Running(s, w)
    ensures Finished(DoFinish(s, w, threw)) == Finished(s) + multiset{s.workers[w].pc.task}
    ensures DoFinish(s, w, threw).workers == s.workers[w := s.workers[w].(pc := Top)]
    ensures DoFinish(s, w, threw).queue == s.queue && DoFinish(s, w, threw).root == s.root
  {
  }

  lemma Regroup(a: multiset<Task>, b: multiset<Task>, c: multiset<Task>, m: multiset<Task>)
    ensures a + b + (c + m) == a + (b + m) + c
  {
  }

  lemma FinishLocal(s: State, w: Id, threw: bool)
    requires LocalInv(s) && Running(s, w)
    ensures LocalInv(DoFinish(s, w, threw))
    ensures SameStanding(s, DoFinish(s, w, threw)) && WillGrab(DoFinish(s, w, threw), w)
  {
  }

  lemma FinishKeeps(s: State, w: Id, threw: bool)
    requires Inv(s) && Running(s, w)
    ensures Inv(DoFinish(s, w, threw))
  {
    FinishLocal(s, w, threw);
    FinishConservation(s, w, threw);
    CommittedFrame(s, DoFinish(s, w, threw), w);
  }

  lemma SubmitLocal(s: State, x: Id, task: Task)
    requires LocalInv(s) && ListsInv(s) && OutsideAt(s, x, Free)
    ensures var s' := SetOutside(PushGlobal(s, task, None, task), x, Pushed(task));
            LocalInv(s') && ListsInv(s') && WakeupInv(s')
  {
    var s' := SetOutside(PushGlobal(s, task, None, task), x, Pushed(task));
    assert s'.outside[x].Pushed?;
    assert forall u :: Linked(s', u) <==> Linked(s, u);
  }

  lemma SubmitWaiters(s: State, x: Id, task: Task)
    requires PusherInv(s) && WaiterInv(s) && OutsideAt(s, x, Free) && task !in s.root && task !in s.queue
    ensures var s' := SetOutside(PushGlobal(s, task, None, task), x, Pushed(task));
            PusherInv(s') && WaiterInv(s')
  {
  }

  lemma SubmitConservation(s: State, x: Id, task: Task)
    requires ConservationInv(s) && task !in s.root
    ensures ConservationInv(SetOutside(PushGlobal(s, task, None, task), x, Pushed(task)))
  {
    RootGrows(s.root, task, task);
  }

  lemma SubmitKeeps(s: State, x: Id, task: Task)
    requires Inv(s) && OutsideAt(s, x, Free) && task !in s.root
    ensures Inv(SetOutside(PushGlobal(s, task, None, task), x, Pushed(task)))
  {
    FreshNotQueued(s, task);
    SubmitLocal(s, x, task);
    SubmitWaiters(s, x, task);
    SubmitConservation(s, x, task);
  }

  /** The heart of the handshake: after ProhibitParking some worker is committed to grab, whatever came before. */
  lemma ProhibitFromOutsideKeeps(s: State, x: Id, woken: Option<Id>)
    requires Inv(s) && CanProhibitOutside(s, x, woken)
    ensures Inv(DoProhibitOutside(s, x, woken))
  {
    ProhibitKeeps(s);
    var p := Notify(Prohibit(s), woken);
    NotifyKeeps(Prohibit(s), woken);
    ProhibitCommits(s, woken);
    ReturnKeeps(p, x);
  }

  lemma ProhibitCommits(s: State, woken: Option<Id>)
    requires LocalInv(s) && CanNotify(s, woken)
    ensures exists w :: WillGrab(Notify(Prohibit(s), woken), w)
  {
    var p := Notify(Prohibit(s), woken);
    if woken.Some? {
      assert WillGrab(p, woken.value);
    } else {
      assert WillGrab(p, 0);
    }
  }

  lemma ReturnKeeps(p: State, x: Id)
    requires Inv(p) && x in p.outside && p.outside[x].Pushed?
    requires exists w :: WillGrab(p, w)
    ensures Inv(SetOutside(p, x, Free).(returned := p.returned + {p.outside[x].task}))
  {
    var s' := SetOutside(p, x, Free).(returned := p.returned + {p.outside[x].task});
    var w :| WillGrab(p, w);
    assert WillGrab(s', w);
    assert forall u :: Linked(s', u) <==> Linked(p, u);
  }

  // ----- waiting for idleness

  lemma OutsideMoveKeeps(s: State, x: Id, o: Outside)
    requires Inv(s) && x in s.outside && !s.outside[x].Pushed?
    requires o == Free || (o.WaitQueue? && o.due <= s.root.Keys) || (o.WaitWorkers? && o.due <= s.root.Keys && s.queue == [])
    ensures Inv(SetOutside(s, x, o))
  {
    var s' := SetOutside(s, x, o);
    assert forall u :: Linked(s', u) <==> Linked(s, u);
    if s'.queue != [] && OutsidersQuiet(s') {
      forall y | y in s.outside ensures !s.outside[y].Pushed? {
        assert y in s'.outside;
      }
      assert OutsidersQuiet(s);
      var w :| WillGrab(s, w);
      assert WillGrab(s', w);
    }
  }

  // ----- every step, every run

  ghost predicate StartsLoop(e: Event) {
    e.Count? || e.AwakeOne? || e.TryLifo? || e.TryPop? || e.Grab? || e.AllowParking? || e.GrabAgain? || e.PushMany?
  }

  ghost predicate StealsOrParks(e: Event) {
    || e.TestImpudence? || e.AskVictim? || e.GiveUpStealing? || e.LowSize? || e.GrabFromVictim? || e.RetestLifo?
    || e.TryParkMe? || e.SpuriousWakeup? || e.Reenlist?
  }

  lemma LoopStepKeeps(s: State, e: Event)
    requires Inv(s) && Enabled(s, e) && StartsLoop(e)
    ensures Inv(Perform(s, e))
  {
    match e
    case Count(w) => CountKeeps(s, w);
    case AwakeOne(w, woken) => NudgeKeeps(s, w, woken);
    case TryLifo(w) => TryLifoKeeps(s, w);
    case TryPop(w) => TryPopKeeps(s, w);
    case Grab(w) => GrabKeeps(s, w, FirstGrab, Allow);
    case AllowParking(w) => AllowParkingKeeps(s, w);
    case GrabAgain(w) => GrabKeeps(s, w, SecondGrab, StealTest);
    case PushMany(w) => PushManyKeeps(s, w);
  }

  lemma StealOrParkStepKeeps(s: State, e: Event)
    requires Inv(s) && Enabled(s, e) && StealsOrParks(e)
    ensures Inv(Perform(s, e))
  {
    match e
    case TestImpudence(w) => TestImpudenceKeeps(s, w);
    case AskVictim(w, seed) => AskVictimKeeps(s, w, seed);
    case GiveUpStealing(w) => GiveUpKeeps(s, w);
    case LowSize(w, size) => LowSizeKeeps(s, w, size);
    case GrabFromVictim(w, taken) =>
      if taken == 0 {
        TakeNothingKeeps(s, w);
        TakeNothingGoes(s, w);
      } else {
        StealKeeps(s, w, taken);
      }
    case RetestLifo(w) => RetestLifoKeeps(s, w);
    case TryParkMe(w) => ParkKeeps(s, w);
    case SpuriousWakeup(w) => WakeKeeps(s, w);
    case Reenlist(w) => ReenlistKeeps(s, w);
  }

  lemma SubmissionStepKeeps(s: State, e: Event)
    requires Inv(s) && Enabled(s, e) && !StartsLoop(e) && !StealsOrParks(e)
    ensures Inv(Perform(s, e))
  {
    match e
    case Spawn(w, task, hint) =>
      if hint == Slow { SpawnSlowKeeps(s, w, task); } else { SpawnHereKeeps(s, w, task, hint); }
    case ProhibitFromWorker(w, woken) => ProhibitFromWorkerKeeps(s, w, woken);
    case Finish(w, threw) => FinishKeeps(s, w, threw);
    case Submit(x, task) => SubmitKeeps(s, x, task);
    case ProhibitFromOutside(x, woken) => ProhibitFromOutsideKeeps(s, x, woken);
    case CallWaitIdle(x) => OutsideMoveKeeps(s, x, WaitQueue(s.returned));
    case SeeQueueIdle(x) => OutsideMoveKeeps(s, x, WaitWorkers(s.outside[x].due));
    case SeeWorkersIdle(x) => OutsideMoveKeeps(s, x, Free);
  }

  lemma StepKeepsInv(s: State, e: Event, s': State)
    requires Inv(s) && Step(s, e, s')
    ensures Inv(s')
  {
    if StartsLoop(e) {
      LoopStepKeeps(s, e);
    } else if StealsOrParks(e) {
      StealOrParkStepKeeps(s, e);
    } else {
      SubmissionStepKeeps(s, e);
    }
  }

  /** These lists hold each of the first n workers once, nobody else, and are balanced. */
  ghost predicate EnlistedOk(n: nat, a: seq<Id>, p: seq<Id>) {
    && NoDup(a + p) && |a| == (n + 1) / 2 && |p| == n / 2
    && forall w :: w in a || w in p <==> 0 <= w < n
  }

  lemma EnlistNext(a: seq<Id>, p: seq<Id>, m: nat)
    requires EnlistedOk(m, a, p)
    ensures EnlistedOk(m + 1, Rebalanced([m] + a, p).0, Rebalanced([m] + a, p).1)
  {
    assert m !in a && m !in p;
    EnlistContents(a, p, m);
  }

  /** What the n constructors leave. */
  lemma {:induction false} EnlistedContents(n: nat)
    ensures EnlistedOk(n, Enlisted(n).0, Enlisted(n).1)
  {
    if n > 0 {
      EnlistedContents(n - 1);
      EnlistNext(Enlisted(n - 1).0, Enlisted(n - 1).1, n - 1);
    }
  }

  lemma InitLists(s: State)
    requires Init(s)
    ensures ListsInv(s)
  {
    EnlistedContents(|s.workers|);
    assert forall w :: Linked(s, w) <==> 0 <= w < |s.workers|;
  }

  lemma InitConserves(s: State)
    requires Init(s)
    ensures ConservationInv(s)
  {
    HeldByNobody(s.workers);
    assert multiset(s.root.Keys) == multiset{};
  }

  lemma InitHolds(s: State)
    requires Init(s)
    ensures Inv(s)
  {
    InitLists(s);
    InitConserves(s);
  }

  lemma RunsKeepInv(states: seq<State>, events: seq<Event>)
    requires Runs.IsRun(Init, Step, states, events)
    ensures forall i :: 0 <= i < |states| ==> Inv(states[i])
  {
    forall s | Init(s) ensures Inv(s) { InitHolds(s); }
    forall s, e, s' | Inv(s) && Step(s, e, s') ensures Inv(s') { StepKeepsInv(s, e, s'); }
    Runs.Invariance(Init, Step, Inv, states, events);
  }
}
