/** The pool as one object whose fields its methods update in place. A method is one atomic action of a worker (in
    PickNextTask, GrabTasksFromGlobalQueue, TryStealTasks, Work), of a task calling Execute, or of an outside thread. */
module ThreadPools {
  import opened Lists
  import opened Coordination
  import opened GlobalTasks
  import opened WorkerPool
  import opened WorkerPoolProofs
  import opened WorkerPoolTheorems

  /** With flags set from the lists, the constructor's state is an initial one. */
  lemma FreshPool(s: State)
    requires |s.workers| == |s.flags| == s.workersBusy > 0
    requires forall w :: 0 <= w < |s.workers| ==> s.workers[w] == WorkerState(Top, [], None, 0, 0)
    requires (s.active, s.passive) == Enlisted(|s.workers|)
    requires forall w :: 0 <= w < |s.flags| ==> s.flags[w] == (if w in s.active then Active else Passive)
    requires s.queue == [] && s.queueBusy == 0 && s.permission == Allowed && s.root == map[] && s.pusher == map[]
    requires s.returned == {} && s.executed == multiset{} && s.discarded == multiset{}
    requires forall x :: x in s.outside ==> s.outside[x] == Free
    ensures Init(s) && Inv(s)
  {
    EnlistedContents(|s.workers|);
    NoDupSplit(s.active, s.passive);
    InitHolds(s);
  }

  /** Nothing in its queue, slot or hands, and nobody finds it in the lists. */
  ghost predicate NothingLeft(s: State, w: Id) {
    0 <= w < |s.workers| && Held(s.workers[w]) == multiset{} && !Linked(s, w)
  }

  lemma AsleepMeans(s: State, w: Id)
    requires Inv(s) && At(s, w, Asleep)
    ensures NothingLeft(s, w)
  {
  }

  lemma TopMeans(s: State, w: Id)
    requires ListsInv(s) && At(s, w, Top)
    ensures Linked(s, w) && WillGrab(s, w)
  {
  }

  lemma FlagMeans(s: State, w: Id)
    requires Inv(s) && 0 <= w < |s.workers| && !Unlinked(s.workers[w].pc)
    ensures s.flags[w] == Active <==> w in s.active
  {
    assert Linked(s, w);
  }

  lemma EmptyHanded(s: State, w: Id, from: Pc, otherwise: Pc)
    requires CanGrab(s, w, from) && !otherwise.Fill?
    ensures At(WorkerPool.GrabShare(s, w, from, otherwise), w, otherwise) <==> s.queue == []
  {
    ShareZero(LOCAL_CAPACITY / 2, |s.queue|, |s.workers|);
  }

  lemma SameHeld(s: State, s': State)
    requires ConservationInv(s) && ConservationInv(s')
    requires s'.queue == s.queue && Finished(s') == Finished(s) && s'.root == s.root
    ensures HeldByAll(s'.workers) == HeldByAll(s.workers)
  {
    var rest := multiset(s.queue) + Finished(s);
    assert multiset(s.queue) + HeldByAll(s.workers) + Finished(s) == HeldByAll(s.workers) + rest;
    assert multiset(s.queue) + HeldByAll(s'.workers) + Finished(s) == HeldByAll(s'.workers) + rest;
    Cancel(HeldByAll(s'.workers), HeldByAll(s.workers), rest);
  }

  lemma AtMostOnce(queued: multiset<Task>, held: multiset<Task>, finished: multiset<Task>, all: multiset<Task>, t: Task)
    requires queued + held + finished == all && all[t] <= 1
    ensures queued[t] + held[t] + finished[t] <= 1
  {
    assert (queued + held + finished)[t] == queued[t] + held[t] + finished[t];
  }

  lemma FinishedOnce(s: State, t: Task)
    requires ConservationInv(s) && t in Finished(s)
    ensures Finished(s)[t] == 1
  {
    AtMostOnce(multiset(s.queue), HeldByAll(s.workers), Finished(s), multiset(s.root.Keys), t);
  }

  lemma QueuedOnce(s: State, t: Task)
    requires ConservationInv(s) && t in s.queue
    ensures multiset(s.queue)[t] == 1
  {
    AtMostOnce(multiset(s.queue), HeldByAll(s.workers), Finished(s), multiset(s.root.Keys), t);
    assert t in multiset(s.queue);
  }

  lemma ReturnCommits(s: State, x: Id, woken: Option<Id>)
    requires Inv(s) && CanProhibitOutside(s, x, woken)
    ensures exists w :: WillGrab(DoProhibitOutside(s, x, woken), w)
  {
    ProhibitCommits(s, woken);
    var w :| WillGrab(WorkerPool.Notify(Prohibit(s), woken), w);
    assert WillGrab(DoProhibitOutside(s, x, woken), w);
  }

  class ThreadPool {
    var workers: seq<WorkerState>
    var flags: seq<Stealing>
    var queue: seq<Task>
    var queueBusy: nat
    var active: seq<Id>
    var passive: seq<Id>
    var permission: Permission
    var workersBusy: nat
    var outside: map<Id, Outside>
    var returned: set<Task>                          // history, like the rest
    ghost var root: map<Task, Task>
    ghost var pusher: map<Task, Option<Id>>
    ghost var executed: multiset<Task>
    ghost var discarded: multiset<Task>

    ghost function View(): State
      reads this
    {
      State(workers, flags, queue, queueBusy, active, passive, permission, workersBusy, outside,
            root, pusher, returned, executed, discarded)
    }

    ghost predicate Valid()
      reads this
    {
      Inv(View())
    }

    constructor (threads: nat, outsiders: set<Id>)
      requires threads > 0
      ensures Valid() && Init(View()) && |workers| == threads && outside.Keys == outsiders
    {
      var a, p := EnlistAll(threads);
      active, passive := a, p;
      workers := seq(threads, _ => WorkerState(Top, [], None, 0, 0));
      flags := seq(threads, i requires 0 <= i < threads => if i in a then Active else Passive);
      queue, queueBusy, permission, workersBusy := [], 0, Allowed, threads;
      outside := map x | x in outsiders :: Free;
      returned := {};
      root, pusher := map[], map[];
      executed, discarded := multiset{}, multiset{};
      new;
      FreshPool(View());
    }

    /** The workers enlist themselves one after the other. */
    static method EnlistAll(threads: nat) returns (a: seq<Id>, p: seq<Id>)
      ensures (a, p) == Enlisted(threads)
    {
      a, p := [], [];
      for i := 0 to threads
        invariant (a, p) == Enlisted(i)
      {
        var split := Rebalanced([i] + a, p);
        a, p := split.0, split.1;
      }
    }

    method Put(w: Id, r: WorkerState)
      requires 0 <= w < |workers|
      modifies `workers
      ensures workers == old(workers)[w := r]
    {
      workers := workers[w := r];
    }

    method Go(w: Id, pc: Pc)
      requires 0 <= w < |workers|
      modifies `workers
      ensures workers == old(workers)[w := old(workers)[w].(pc := pc)]
    {
      workers := workers[w := workers[w].(pc := pc)];
    }

    /** notify_one: the sleeper that it wakes, if any sleeps, is the condition variable's choice. */
    method Notify(woken: Option<Id>)
      requires woken.Some? ==> 0 <= woken.value < |workers|
      modifies `workers
      ensures woken.None? ==> workers == old(workers)
      ensures woken.Some? ==> workers == old(workers)[woken.value := old(workers)[woken.value].(pc := Notified)]
    {
      if woken.Some? {
        Go(woken.value, Notified);
      }
    }

    // ----- PickNextTask

    method Count(w: Id)
      requires Valid() && Enabled(View(), Event.Count(w))
      modifies this
      ensures Valid() && View() == Perform(old(View()), Event.Count(w))
    {
      var r := workers[w];
      r := r.(cycle := r.cycle + 1);
      if r.cycle >= NUDGE_PERIOD {
        r := r.(cycle := 0, pc := Nudge);
      } else {
        r := r.(pc := TakeLifo);
      }
      Put(w, r);
      StepKeepsInv(old(View()), Event.Count(w), View());
    }

    method AwakeOne(w: Id, woken: Option<Id>)
      requires Valid() && Enabled(View(), Event.AwakeOne(w, woken))
      modifies this
      ensures Valid() && View() == Perform(old(View()), Event.AwakeOne(w, woken))
    {
      Notify(woken);
      Go(w, TakeLifo);
      StepKeepsInv(old(View()), Event.AwakeOne(w, woken), View());
    }

    method TryLifo(w: Id)
      requires Valid() && Enabled(View(), Event.TryLifo(w))
      modifies this
      ensures Valid() && View() == Perform(old(View()), Event.TryLifo(w))
      ensures if old(workers[w].lifo).Some? && old(workers[w].lifoUsage) < 19 then
                && workers[w].pc == Run(old(workers[w].lifo).value) && workers[w].lifo == None
                && workers[w].lifoUsage == old(workers[w].lifoUsage) + 1
              else workers[w].pc == PopLocal && workers[w].lifo == old(workers[w].lifo) && workers[w].lifoUsage == 0
    {
      var r := workers[w];
      if r.lifoUsage < LIFO_LIMIT && r.lifo.Some? {
        Put(w, r.(pc := Run(r.lifo.value), lifo := None, lifoUsage := r.lifoUsage + 1));
      } else {
        Put(w, r.(pc := PopLocal, lifoUsage := 0));
      }
      StepKeepsInv(old(View()), Event.TryLifo(w), View());
    }

    method TryPop(w: Id)
      requires Valid() && Enabled(View(), Event.TryPop(w))
      modifies this
      ensures Valid() && View() == Perform(old(View()), Event.TryPop(w))
    {
      var r := workers[w];
      if r.local == [] {
        Put(w, r.(pc := FirstGrab));
      } else {
        Put(w, r.(pc := Run(r.local[0]), local := r.local[1..]));
      }
      StepKeepsInv(old(View()), Event.TryPop(w), View());
    }

    // ----- GrabTasksFromGlobalQueue

    /** The global queue's Grab, one section under its mutex: tasks are moved one by one into the buffer. */
    method GrabShare(w: Id, otherwise: Pc)
      requires 0 <= w < |workers| && (queue != [] ==> queueBusy > 0)
      modifies `workers, `queue, `queueBusy
      ensures var k := Share(LOCAL_CAPACITY / 2, |old(queue)|, |old(workers)|);
              && queue == old(queue)[k..]
              && queueBusy == (if k > 0 && k == |old(queue)| then old(queueBusy) - 1 else old(queueBusy))
              && workers == old(workers)[w := old(workers)[w].
                   (pc := if k == 0 then otherwise else Fill(old(queue)[..k]))]
    {
      var share := Share(LOCAL_CAPACITY / 2, |queue|, |workers|);
      var buffer := TakeFront(share);
      if buffer == [] {
        Go(w, otherwise);
      } else {
        Go(w, Fill(buffer));
        if queue == [] {
          queueBusy := queueBusy - 1;
        }
      }
    }

    method GrabFrom(w: Id, ghost from: Pc, otherwise: Pc)
      requires CanGrab(View(), w, from) && |workers| > 0
      modifies this
      ensures View() == WorkerPool.GrabShare(old(View()), w, from, otherwise)
    {
      GrabShare(w, otherwise);
    }

    method TakeFront(count: nat) returns (buffer: seq<Task>)
      requires count <= |queue|
      modifies `queue
      ensures buffer == old(queue)[..count] && queue == old(queue)[count..]
    {
      ghost var before := queue;
      buffer := [];
      while |buffer| < count
        invariant |buffer| <= count <= |before|
        invariant buffer == before[..|buffer|] && queue == before[|buffer|..]
        decreases count - |buffer|
      {
        buffer := buffer + [queue[0]];
        queue := queue[1..];
      }
    }

    /** Empty-handed exactly when there is nothing to grab. */
    method Grab(w: Id)
      requires Valid() && Enabled(View(), Event.Grab(w))
      modifies this
      ensures Valid() && View() == Perform(old(View()), Event.Grab(w))
      ensures 0 <= w < |workers| && (workers[w].pc == Allow <==> old(queue) == [])
    {
      GrabFrom(w, FirstGrab, Allow);
      EmptyHanded(old(View()), w, FirstGrab, Allow);
      StepKeepsInv(old(View()), Event.Grab(w), View());
    }

    method AllowParking(w: Id)
      requires Valid() && Enabled(View(), Event.AllowParking(w))
      modifies this
      ensures Valid() && View() == Perform(old(View()), Event.AllowParking(w))
    {
      if permission != PermanentlyProhibited {
        permission := Allowed;
      }
      Go(w, SecondGrab);
      StepKeepsInv(old(View()), Event.AllowParking(w), View());
    }

    /** Only a worker that saw the global queue empty after it allowed parking goes on to steal or park. */
    method GrabAgain(w: Id)
      requires Valid() && Enabled(View(), Event.GrabAgain(w))
      modifies this
      ensures Valid() && View() == Perform(old(View()), Event.GrabAgain(w))
      ensures 0 <= w < |workers| && (workers[w].pc == StealTest <==> old(queue) == [])
    {
      GrabFrom(w, SecondGrab, StealTest);
      EmptyHanded(old(View()), w, SecondGrab, StealTest);
      StepKeepsInv(old(View()), Event.GrabAgain(w), View());
    }

    method PushMany(w: Id)
      requires Valid() && Enabled(View(), Event.PushMany(w))
      modifies this
      ensures Valid() && View() == Perform(old(View()), Event.PushMany(w))
      ensures w < |workers| && |workers[w].local| <= LOCAL_CAPACITY
    {
      var r := workers[w];
      Put(w, r.(pc := Run(r.pc.buffer[0]), local := r.local + r.pc.buffer[1..]));
      StepKeepsInv(old(View()), Event.PushMany(w), View());
    }

    // ----- TryStealTasks

    /** Only a worker of the active list steals. */
    method TestImpudence(w: Id)
      requires Valid() && Enabled(View(), Event.TestImpudence(w))
      modifies this
      ensures Valid() && View() == Perform(old(View()), Event.TestImpudence(w))
      ensures 0 <= w < |workers| && (workers[w].pc == Steal(0) <==> w in active)
    {
      Go(w, if flags[w] == Active then Steal(0) else LifoAgain);
      StepKeepsInv(old(View()), Event.TestImpudence(w), View());
      FlagMeans(View(), w);
    }

    method VictimAt(seed: nat) returns (victim: Id)
      requires |active| + |passive| > 0
      ensures victim == (active + passive)[seed % (|active| + |passive|)]
    {
      var place := seed % (|active| + |passive|);
      victim := if place < |active| then active[place] else passive[place - |active|];
    }

    /** The victim is somebody else. */
    method AskVictim(w: Id, seed: nat)
      requires Valid() && Enabled(View(), Event.AskVictim(w, seed))
      modifies this
      ensures Valid() && View() == Perform(old(View()), Event.AskVictim(w, seed))
      ensures 0 <= w < |workers| && (workers[w].pc.Measure? ==> VictimOk(View(), w, workers[w].pc))
    {
      var tries := workers[w].pc.tries;
      var victim := VictimAt(seed);
      Go(w, if victim == w then Steal(tries + 1) else Measure(tries, victim));
      StepKeepsInv(old(View()), Event.AskVictim(w, seed), View());
    }

    method GiveUpStealing(w: Id)
      requires Valid() && Enabled(View(), Event.GiveUpStealing(w))
      modifies this
      ensures Valid() && View() == Perform(old(View()), Event.GiveUpStealing(w))
    {
      Go(w, LifoAgain);
      StepKeepsInv(old(View()), Event.GiveUpStealing(w), View());
    }

    method LowSize(w: Id, size: nat)
      requires Valid() && Enabled(View(), Event.LowSize(w, size))
      modifies this
      ensures Valid() && View() == Perform(old(View()), Event.LowSize(w, size))
    {
      var pc := workers[w].pc;
      Go(w, Take(pc.tries, pc.victim, Min(size / 2, LOCAL_CAPACITY)));
      StepKeepsInv(old(View()), Event.LowSize(w, size), View());
    }

    /** Whatever leaves the victim is in the hands of the thief. */
    method GrabFromVictim(w: Id, taken: nat)
      requires Valid() && Enabled(View(), Event.GrabFromVictim(w, taken))
      modifies this
      ensures Valid() && View() == Perform(old(View()), Event.GrabFromVictim(w, taken))
      ensures HeldByAll(workers) == old(HeldByAll(workers))
    {
      var pc := workers[w].pc;
      if taken == 0 {
        Go(w, Steal(pc.tries + 1));
      } else {
        var v := workers[pc.victim];
        Go(w, Fill(v.local[..taken]));
        Put(pc.victim, v.(local := v.local[taken..]));
      }
      StepKeepsInv(old(View()), Event.GrabFromVictim(w, taken), View());
      SameHeld(old(View()), View());
    }

    // ----- parking

    method RetestLifo(w: Id)
      requires Valid() && Enabled(View(), Event.RetestLifo(w))
      modifies this
      ensures Valid() && View() == Perform(old(View()), Event.RetestLifo(w))
    {
      Go(w, if workers[w].lifo.Some? then Top else Park);
      StepKeepsInv(old(View()), Event.RetestLifo(w), View());
    }

    /** TryParkMe up to the wait. */
    method Leave(w: Id)
      requires CanPark(View(), w)
      modifies this
      ensures View() == DoPark(old(View()), w)
    {
      if permission == Allowed {
        Go(w, Asleep);
        active, passive := Without(active, w), Without(passive, w);
        workersBusy := workersBusy - 1;
      } else {
        Go(w, Top);
      }
    }

    /** A worker that falls asleep has nothing in hand and is in neither list. */
    method TryParkMe(w: Id)
      requires Valid() && Enabled(View(), Event.TryParkMe(w))
      modifies this
      ensures Valid() && View() == Perform(old(View()), Event.TryParkMe(w))
      ensures 0 <= w < |workers| && (workers[w].pc == Asleep ==> NothingLeft(View(), w))
    {
      Leave(w);
      StepKeepsInv(old(View()), Event.TryParkMe(w), View());
      if workers[w].pc == Asleep {
        AsleepMeans(View(), w);
      }
    }

    method SpuriousWakeup(w: Id)
      requires Valid() && Enabled(View(), Event.SpuriousWakeup(w))
      modifies this
      ensures Valid() && View() == Perform(old(View()), Event.SpuriousWakeup(w))
    {
      Go(w, Notified);
      StepKeepsInv(old(View()), Event.SpuriousWakeup(w), View());
    }

    /** What TryParkMe does after the wait; see Coordination for the loops of rebalancing. */
    method AcquireUnsafe(w: Id)
      modifies this
      ensures View() == Enlist(old(View()), w)
    {
      workersBusy := workersBusy + 1;
      var (a, p) := Rebalanced([w] + active, passive);
      active, passive := a, p;
      flags := Flagged(flags, a, p);
    }

    method ComeBack(w: Id)
      requires 0 <= w < |workers|
      modifies this
      ensures View() == WorkerPool.Go(Enlist(old(View()), w), w, Top)
    {
      AcquireUnsafe(w);
      Go(w, Top);
    }

    /** Back in the lists, and bound to look at the global queue before it can park again. */
    method Reenlist(w: Id)
      requires Valid() && Enabled(View(), Event.Reenlist(w))
      modifies this
      ensures Valid() && View() == Perform(old(View()), Event.Reenlist(w))
      ensures Linked(View(), w) && WillGrab(View(), w)
    {
      ComeBack(w);
      StepKeepsInv(old(View()), Event.Reenlist(w), View());
      TopMeans(View(), w);
    }

    // ----- Execute and Work

    /** PushOne, one section under the global queue's mutex. */
    method PushOne(task: Task, ghost origin: Option<Id>, ghost ancestor: Task)
      modifies `queue, `queueBusy, `pusher, `root
      ensures queue == old(queue) + [task]
      ensures queueBusy == (if old(queue) == [] then old(queueBusy) + 1 else old(queueBusy))
      ensures pusher == old(pusher)[task := origin] && root == old(root)[task := ancestor]
    {
      if queue == [] {
        queueBusy := queueBusy + 1;
      }
      queue := queue + [task];
      pusher, root := pusher[task := origin], root[task := ancestor];
    }

    method Prohibit()
      modifies `permission
      ensures permission == if old(permission) == PermanentlyProhibited then PermanentlyProhibited else TemporaryProhibited
    {
      if permission != PermanentlyProhibited {
        permission := TemporaryProhibited;
      }
    }

    method WakeSomebody(woken: Option<Id>)
      requires CanNotify(View(), woken)
      modifies this
      ensures View() == WorkerPool.Notify(WorkerPool.Prohibit(old(View())), woken)
    {
      Prohibit();
      Notify(woken);
    }

    /** Execute, called by a task that a worker of this pool runs. */
    method ExecuteInPool(w: Id, task: Task, hint: Hint)
      requires CanSpawn(View(), w, task, hint)
      modifies this
      ensures View() == DoSpawn(old(View()), w, task, hint)
    {
      var r := workers[w];
      ghost var ancestor := root[r.pc.task];
      match hint
      case UpToYou =>
        Put(w, r.(local := r.local + [task]));
        root := root[task := ancestor];
      case Next =>
        var local := if r.lifo.Some? then r.local + [r.lifo.value] else r.local;
        Put(w, r.(local := local, lifo := Some(task)));
        root := root[task := ancestor];
      case Slow =>
        PushOne(task, Some(w), ancestor);
        Go(w, SlowPushed(r.pc.task));
    }

    method Spawn(w: Id, task: Task, hint: Hint)
      requires Valid() && Enabled(View(), Event.Spawn(w, task, hint))
      modifies this
      ensures Valid() && View() == Perform(old(View()), Event.Spawn(w, task, hint))
    {
      ExecuteInPool(w, task, hint);
      StepKeepsInv(old(View()), Event.Spawn(w, task, hint), View());
    }

    /** ProhibitParking, one section under the coordinator's mutex. */
    method ProhibitParking(w: Id, woken: Option<Id>)
      requires CanProhibit(View(), w, woken)
      modifies this
      ensures View() == DoProhibit(old(View()), w, woken)
    {
      var task := workers[w].pc.task;
      WakeSomebody(woken);
      Go(w, Run(task));
    }

    method ProhibitFromWorker(w: Id, woken: Option<Id>)
      requires Valid() && Enabled(View(), Event.ProhibitFromWorker(w, woken))
      modifies this
      ensures Valid() && View() == Perform(old(View()), Event.ProhibitFromWorker(w, woken))
    {
      ProhibitParking(w, woken);
      StepKeepsInv(old(View()), Event.ProhibitFromWorker(w, woken), View());
    }

    /** The end of one turn of Work's loop. */
    method EndTask(w: Id, threw: bool)
      requires Running(View(), w)
      modifies this
      ensures View() == DoFinish(old(View()), w, threw)
    {
      var task := workers[w].pc.task;
      if threw {
        discarded := discarded + multiset{task};
      } else {
        executed := executed + multiset{task};
      }
      Go(w, Top);
    }

    /** Finished for the first and only time. */
    method Finish(w: Id, threw: bool)
      requires Valid() && Enabled(View(), Event.Finish(w, threw))
      modifies this
      ensures Valid() && View() == Perform(old(View()), Event.Finish(w, threw))
      ensures 0 <= w < |workers| && old(workers[w].pc).Run? && Finished(View())[old(workers[w].pc).task] == 1
    {
      EndTask(w, threw);
      StepKeepsInv(old(View()), Event.Finish(w, threw), View());
      FinishedOnce(View(), old(workers[w].pc).task);
    }

    /** Execute, called by any other thread. */
    method Submit(x: Id, task: Task)
      requires Valid() && Enabled(View(), Event.Submit(x, task))
      modifies this
      ensures Valid() && View() == Perform(old(View()), Event.Submit(x, task))
      ensures multiset(queue)[task] == 1
    {
      PushOne(task, None, task);
      outside := outside[x := Pushed(task)];
      StepKeepsInv(old(View()), Event.Submit(x, task), View());
      QueuedOnce(View(), task);
    }

    /** The second half of an outside Execute. */
    method ReturnFromExecute(x: Id, woken: Option<Id>)
      requires CanProhibitOutside(View(), x, woken)
      modifies this
      ensures View() == DoProhibitOutside(old(View()), x, woken)
    {
      var task := outside[x].task;
      WakeSomebody(woken);
      outside := outside[x := Free];
      returned := returned + {task};
    }

    /** When Execute returns, some worker will grab before it can sleep. */
    method ProhibitFromOutside(x: Id, woken: Option<Id>)
      requires Valid() && Enabled(View(), Event.ProhibitFromOutside(x, woken))
      modifies this
      ensures Valid() && View() == Perform(old(View()), Event.ProhibitFromOutside(x, woken))
      ensures exists w :: WillGrab(View(), w)
    {
      ReturnFromExecute(x, woken);
      StepKeepsInv(old(View()), Event.ProhibitFromOutside(x, woken), View());
      ReturnCommits(old(View()), x, woken);
    }

    // ----- WaitIdle

    method CallWaitIdle(x: Id)
      requires Valid() && Enabled(View(), Event.CallWaitIdle(x))
      modifies this
      ensures Valid() && View() == Perform(old(View()), Event.CallWaitIdle(x))
    {
      outside := outside[x := WaitQueue(returned)];
      StepKeepsInv(old(View()), Event.CallWaitIdle(x), View());
    }

    /** The counter at zero means an empty queue. */
    method SeeQueueIdle(x: Id)
      requires Valid() && Enabled(View(), Event.SeeQueueIdle(x))
      modifies this
      ensures Valid() && View() == Perform(old(View()), Event.SeeQueueIdle(x))
      ensures queue == []
    {
      outside := outside[x := WaitWorkers(outside[x].due)];
      StepKeepsInv(old(View()), Event.SeeQueueIdle(x), View());
    }

    /** WaitIdle returns: everything due is finished. */
    method SeeWorkersIdle(x: Id)
      requires Valid() && Enabled(View(), Event.SeeWorkersIdle(x))
      modifies this
      ensures Valid() && View() == Perform(old(View()), Event.SeeWorkersIdle(x))
      ensures forall t :: t in root && root[t] in old(outside[x]).due ==> t in Finished(View())
    {
      forall t | t in root && root[t] in outside[x].due ensures t in Finished(View()) {
        WaiterReturnsSound(View(), x, t);
      }
      outside := outside[x := Free];
      StepKeepsInv(old(View()), Event.SeeWorkersIdle(x), View());
    }
  }
}
