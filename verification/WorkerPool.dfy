/** The work-stealing thread pool as a step system: any number of workers and any number of outside threads,
    each atomic action one event. Tasks are unique identities. Sections under a mutex are one event each, and a
    local queue's pop, push and grab are one event at their linearization point (see RingBuffer). Runs are those
    before Stop in which no local queue overflows. */
module WorkerPool {
  import opened Lists
  import opened Coordination
  import opened GlobalTasks

  const LOCAL_CAPACITY: nat := 256
  const LIFO_LIMIT: nat := 19
  const NUDGE_PERIOD: nat := 10

  type Id = int
  type Task = int

  datatype Hint = UpToYou | Next | Slow

  /** Where a worker stands in its loop. Names follow the next atomic action it will take. */
  datatype Pc =
    | Top                                            // test stopped_, count the cycle
    | Nudge                                          // AwakeOne
    | TakeLifo
    | PopLocal
    | FirstGrab
    | Allow                                          // AllowParking
    | SecondGrab
    | Fill(buffer: seq<Task>)                        // PushMany of all but the first, then run the first
    | StealTest                                      // read impudence_
    | Steal(tries: nat)                              // GiveVictim
    | Measure(tries: nat, victim: Id)                // LowSize of the victim
    | Take(tries: nat, victim: Id, limit: nat)       // Grab from the victim
    | LifoAgain
    | Park                                           // TryParkMe
    | Asleep                                         // inside sleeper_.wait
    | Notified                                       // woken, about to re-enlist
    | Run(task: Task)
    | SlowPushed(task: Task)                         // inside Execute(Slow): pushed, about to ProhibitParking

  datatype WorkerState = WorkerState(pc: Pc, local: seq<Task>, lifo: Option<Task>, lifoUsage: nat, cycle: nat)

  /** A thread outside the pool. A waiter remembers the tasks whose Execute had returned when it called WaitIdle. */
  datatype Outside =
    | Free
    | Pushed(task: Task)                             // inside Execute: pushed, about to ProhibitParking
    | WaitQueue(due: set<Task>)
    | WaitWorkers(due: set<Task>)

  datatype State = State(
    workers: seq<WorkerState>,
    flags: seq<Stealing>,
    queue: seq<Task>,                                // the global queue
    queueBusy: nat,                                  // its idle counter
    active: seq<Id>, passive: seq<Id>,
    permission: Permission,
    workersBusy: nat,                                // the coordinator's idle counter
    outside: map<Id, Outside>,
    // history
    root: map<Task, Task>,                           // every submitted task, with the outside task it descends from
    pusher: map<Task, Option<Id>>,                   // who put a task into the global queue: a worker, or an outsider
    returned: set<Task>,                             // tasks whose outside Execute has returned
    executed: multiset<Task>,
    discarded: multiset<Task>)

  datatype Event =
    | Count(w: Id)
    | AwakeOne(w: Id, woken: Option<Id>)
    | TryLifo(w: Id)
    | TryPop(w: Id)
    | Grab(w: Id)
    | AllowParking(w: Id)
    | GrabAgain(w: Id)
    | PushMany(w: Id)
    | TestImpudence(w: Id)
    | AskVictim(w: Id, seed: nat)
    | GiveUpStealing(w: Id)
    | LowSize(w: Id, size: nat)
    | GrabFromVictim(w: Id, taken: nat)
    | RetestLifo(w: Id)
    | TryParkMe(w: Id)
    | SpuriousWakeup(w: Id)
    | Reenlist(w: Id)
    | Spawn(w: Id, task: Task, hint: Hint)
    | ProhibitFromWorker(w: Id, woken: Option<Id>)
    | Finish(w: Id, threw: bool)
    | Submit(x: Id, task: Task)
    | ProhibitFromOutside(x: Id, woken: Option<Id>)
    | CallWaitIdle(x: Id)
    | SeeQueueIdle(x: Id)
    | SeeWorkersIdle(x: Id)                          // WaitIdle returns

  // ----- classes of program points

  /** Counted out of the coordinator. */
  ghost predicate Unlinked(pc: Pc) {
    pc.Asleep? || pc.Notified?
  }

  /** Past the second empty grab: the worker may park without looking at the global queue again. */
  ghost predicate Drained(pc: Pc) {
    pc.StealTest? || pc.Steal? || pc.Measure? || pc.Take? || pc.LifoAgain? || pc.Park?
  }

  /** The worker must grab from the global queue before it can park. */
  ghost predicate Eager(pc: Pc) {
    !Unlinked(pc) && !Drained(pc)
  }

  /** The worker found its local queue empty and has pushed nothing there since. */
  ghost predicate LocalSeenEmpty(pc: Pc) {
    pc.FirstGrab? || pc.Allow? || pc.SecondGrab? || pc.Fill? || Drained(pc) || Unlinked(pc)
  }

  // ----- initial state

  /** The lists after the constructors of n workers have each enlisted themselves. */
  ghost function Enlisted(n: nat): (seq<Id>, seq<Id>) {
    if n == 0 then ([], []) else
    var (a, p) := Enlisted(n - 1);
    Rebalanced([n - 1] + a, p)
  }

  ghost predicate Init(s: State) {
    && |s.workers| == |s.flags| == s.workersBusy > 0
    && (forall w :: 0 <= w < |s.workers| ==> s.workers[w] == WorkerState(Top, [], None, 0, 0))
    && (s.active, s.passive) == Enlisted(|s.workers|)
    && FlagsAgree(s)
    && s.queue == [] && s.queueBusy == 0
    && s.permission == Allowed
    && s.root == map[] && s.pusher == map[] && s.returned == {}
    && s.executed == multiset{} && s.discarded == multiset{}
    && forall x :: x in s.outside ==> s.outside[x] == Free
  }

  // ----- steps

  ghost function Put(s: State, w: Id, r: WorkerState): State
    requires 0 <= w < |s.workers|
  {
    s.(workers := s.workers[w := r])
  }

  ghost function Go(s: State, w: Id, pc: Pc): State
    requires 0 <= w < |s.workers|
  {
    Put(s, w, s.workers[w].(pc := pc))
  }

  ghost predicate At(s: State, w: Id, pc: Pc) {
    0 <= w < |s.workers| && s.workers[w].pc == pc
  }

  ghost predicate SomeoneAsleep(s: State) {
    exists w :: 0 <= w < |s.workers| && s.workers[w].pc == Asleep
  }

  /** notify_one picks some sleeper if there is one. */
  ghost predicate CanNotify(s: State, woken: Option<Id>) {
    if woken.Some? then At(s, woken.value, Asleep) else !SomeoneAsleep(s)
  }

  ghost function Notify(s: State, woken: Option<Id>): State
    requires CanNotify(s, woken)
  {
    if woken.Some? then Go(s, woken.value, Notified) else s
  }

  ghost function Prohibit(s: State): State {
    if s.permission == PermanentlyProhibited then s else s.(permission := TemporaryProhibited)
  }

  // The worker's own moves: nothing shared changes.

  ghost function DoCount(r: WorkerState): WorkerState {
    if r.cycle + 1 >= NUDGE_PERIOD then r.(cycle := 0, pc := Nudge)
    else r.(cycle := r.cycle + 1, pc := TakeLifo)
  }

  ghost function DoTryLifo(r: WorkerState): WorkerState {
    if r.lifoUsage < LIFO_LIMIT && r.lifo.Some? then
      r.(pc := Run(r.lifo.value), lifo := None, lifoUsage := r.lifoUsage + 1)
    else r.(pc := PopLocal, lifoUsage := 0)
  }

  ghost function DoTryPop(r: WorkerState): WorkerState {
    if r.local == [] then r.(pc := FirstGrab)
    else r.(pc := Run(r.local[0]), local := r.local[1..])
  }

  ghost function DoPushMany(r: WorkerState): WorkerState
    requires r.pc.Fill? && r.pc.buffer != []
  {
    r.(pc := Run(r.pc.buffer[0]), local := r.local + r.pc.buffer[1..])
  }

  ghost predicate CanAskVictim(s: State, w: Id) {
    && 0 <= w < |s.workers| && s.workers[w].pc.Steal? && s.workers[w].pc.tries < (|s.workers| + 1) / 2
    && |s.active| + |s.passive| > 0
  }

  ghost function DoAskVictim(s: State, w: Id, seed: nat): Pc
    requires CanAskVictim(s, w)
  {
    var victim := (s.active + s.passive)[seed % (|s.active| + |s.passive|)];
    if victim == w then Steal(s.workers[w].pc.tries + 1) else Measure(s.workers[w].pc.tries, victim)
  }

  ghost predicate CanGiveUp(s: State, w: Id) {
    0 <= w < |s.workers| && s.workers[w].pc.Steal? && s.workers[w].pc.tries >= (|s.workers| + 1) / 2
  }

  ghost predicate CanLowSize(s: State, w: Id, size: nat) {
    && 0 <= w < |s.workers| && s.workers[w].pc.Measure? && 0 <= s.workers[w].pc.victim < |s.workers|
    && size <= |s.workers[s.workers[w].pc.victim].local|
  }

  ghost function DoLowSize(pc: Pc, size: nat): Pc
    requires pc.Measure?
  {
    Take(pc.tries, pc.victim, Min(size / 2, LOCAL_CAPACITY))
  }

  // Grabbing and stealing.

  ghost predicate CanGrab(s: State, w: Id, pc: Pc) {
    At(s, w, pc) && (s.queue != [] ==> s.queueBusy > 0)
  }

  ghost function QueueShare(s: State): nat
    requires |s.workers| > 0
  {
    Share(LOCAL_CAPACITY / 2, |s.queue|, |s.workers|)
  }

  /** One grab from the global queue; empty-handed the worker goes on to the given point. */
  ghost function GrabShare(s: State, w: Id, from: Pc, otherwise: Pc): State
    requires CanGrab(s, w, from)
  {
    var k := QueueShare(s);
    if k == 0 then Go(s, w, otherwise)
    else
      Go(s, w, Fill(s.queue[..k])).(
        queue := s.queue[k..],
        queueBusy := if k == |s.queue| then s.queueBusy - 1 else s.queueBusy)
  }

  ghost predicate CanTake(s: State, w: Id, taken: nat) {
    && 0 <= w < |s.workers| && s.workers[w].pc.Take?
    && 0 <= s.workers[w].pc.victim < |s.workers| && s.workers[w].pc.victim != w
    && taken <= Min(s.workers[w].pc.limit, |s.workers[s.workers[w].pc.victim].local|)
    && (taken == 0 ==> s.workers[w].pc.limit == 0 || s.workers[s.workers[w].pc.victim].local == [])
  }

  ghost function DoTake(s: State, w: Id, taken: nat): State
    requires CanTake(s, w, taken)
  {
    var pc := s.workers[w].pc;
    if taken == 0 then Go(s, w, Steal(pc.tries + 1))
    else
      var v := s.workers[pc.victim];
      Put(Go(s, w, Fill(v.local[..taken])), pc.victim, v.(local := v.local[taken..]))
  }

  // Parking.

  ghost function PermitParking(s: State): State {
    if s.permission == PermanentlyProhibited then s else s.(permission := Allowed)
  }

  ghost predicate CanPark(s: State, w: Id) {
    At(s, w, Park) && s.workersBusy > 0
  }

  ghost function DoPark(s: State, w: Id): State
    requires CanPark(s, w)
  {
    if s.permission != Allowed then Go(s, w, Top)
    else
      Go(s, w, Asleep).(active := Without(s.active, w), passive := Without(s.passive, w),
                        workersBusy := s.workersBusy - 1)
  }

  /** Every worker's flag follows its list; who is in neither keeps it. */
  function Flagged(flags: seq<Stealing>, active: seq<Id>, passive: seq<Id>): seq<Stealing> {
    seq(|flags|, i requires 0 <= i < |flags| => if i in active then Active else if i in passive then Passive else flags[i])
  }

  /** AcquireUnsafe: head of the active list, then rebalance; every moved worker's flag follows its list. */
  ghost function Enlist(s: State, w: Id): State {
    var (a, p) := Rebalanced([w] + s.active, s.passive);
    s.(active := a, passive := p, workersBusy := s.workersBusy + 1,
       flags := Flagged(s.flags, a, p))
  }

  ghost predicate CanNudge(s: State, w: Id, woken: Option<Id>) {
    At(s, w, Nudge) && CanNotify(s, woken)
  }

  ghost function DoNudge(s: State, w: Id, woken: Option<Id>): State
    requires CanNudge(s, w, woken)
  {
    Go(Notify(s, woken), w, TakeLifo)
  }

  // Submitting and finishing.

  ghost function PushGlobal(s: State, task: Task, origin: Option<Id>, root: Task): State {
    s.(queue := s.queue + [task],
       queueBusy := if s.queue == [] then s.queueBusy + 1 else s.queueBusy,
       pusher := s.pusher[task := origin],
       root := s.root[task := root])
  }

  ghost predicate CanSpawn(s: State, w: Id, task: Task, hint: Hint) {
    && 0 <= w < |s.workers| && s.workers[w].pc.Run? && s.workers[w].pc.task in s.root && task !in s.root
    && (hint == UpToYou ==> |s.workers[w].local| < LOCAL_CAPACITY)
    && (hint == Next && s.workers[w].lifo.Some? ==> |s.workers[w].local| < LOCAL_CAPACITY)
  }

  ghost function DoSpawn(s: State, w: Id, task: Task, hint: Hint): State
    requires CanSpawn(s, w, task, hint)
  {
    var r := s.workers[w];
    var root := s.root[r.pc.task];
    match hint
    case UpToYou => Put(s, w, r.(local := r.local + [task])).(root := s.root[task := root])
    case Next =>
      if r.lifo.None? then Put(s, w, r.(lifo := Some(task))).(root := s.root[task := root])
      else Put(s, w, r.(local := r.local + [r.lifo.value], lifo := Some(task))).(root := s.root[task := root])
    case Slow => Go(PushGlobal(s, task, Some(w), root), w, SlowPushed(r.pc.task))
  }

  ghost predicate CanProhibit(s: State, w: Id, woken: Option<Id>) {
    0 <= w < |s.workers| && s.workers[w].pc.SlowPushed? && CanNotify(s, woken)
  }

  ghost function DoProhibit(s: State, w: Id, woken: Option<Id>): State
    requires CanProhibit(s, w, woken)
  {
    Go(Notify(Prohibit(s), woken), w, Run(s.workers[w].pc.task))
  }

  ghost predicate Running(s: State, w: Id) {
    0 <= w < |s.workers| && s.workers[w].pc.Run?
  }

  ghost function DoFinish(s: State, w: Id, threw: bool): State
    requires Running(s, w)
  {
    var task := s.workers[w].pc.task;
    if threw then Go(s, w, Top).(discarded := s.discarded + multiset{task})
    else Go(s, w, Top).(executed := s.executed + multiset{task})
  }

  ghost predicate OutsideAt(s: State, x: Id, o: Outside) {
    x in s.outside && s.outside[x] == o
  }

  ghost function SetOutside(s: State, x: Id, o: Outside): State {
    s.(outside := s.outside[x := o])
  }

  ghost predicate CanProhibitOutside(s: State, x: Id, woken: Option<Id>) {
    x in s.outside && s.outside[x].Pushed? && CanNotify(s, woken)
  }

  ghost function DoProhibitOutside(s: State, x: Id, woken: Option<Id>): State
    requires CanProhibitOutside(s, x, woken)
  {
    SetOutside(Notify(Prohibit(s), woken), x, Free).(returned := s.returned + {s.outside[x].task})
  }

  ghost predicate Enabled(s: State, e: Event) {
    match e
    case Count(w) => At(s, w, Top)
    case AwakeOne(w, woken) => CanNudge(s, w, woken)
    case TryLifo(w) => At(s, w, TakeLifo)
    case TryPop(w) => At(s, w, PopLocal)
    case Grab(w) => CanGrab(s, w, FirstGrab)
    case AllowParking(w) => At(s, w, Allow)
    case GrabAgain(w) => CanGrab(s, w, SecondGrab)
    case PushMany(w) => 0 <= w < |s.workers| && s.workers[w].pc.Fill? && s.workers[w].pc.buffer != []
    case TestImpudence(w) => At(s, w, StealTest) && |s.flags| == |s.workers|
    case AskVictim(w, seed) => CanAskVictim(s, w)
    case GiveUpStealing(w) => CanGiveUp(s, w)
    case LowSize(w, size) => CanLowSize(s, w, size)
    case GrabFromVictim(w, taken) => CanTake(s, w, taken)
    case RetestLifo(w) => At(s, w, LifoAgain)
    case TryParkMe(w) => CanPark(s, w)
    case SpuriousWakeup(w) => At(s, w, Asleep)
    case Reenlist(w) => At(s, w, Notified) && |s.flags| == |s.workers|
    case Spawn(w, task, hint) => CanSpawn(s, w, task, hint)
    case ProhibitFromWorker(w, woken) => CanProhibit(s, w, woken)
    case Finish(w, threw) => Running(s, w)
    case Submit(x, task) => OutsideAt(s, x, Free) && task !in s.root
    case ProhibitFromOutside(x, woken) => CanProhibitOutside(s, x, woken)
    case CallWaitIdle(x) => OutsideAt(s, x, Free)
    case SeeQueueIdle(x) => x in s.outside && s.outside[x].WaitQueue? && s.queueBusy == 0
    case SeeWorkersIdle(x) => x in s.outside && s.outside[x].WaitWorkers? && s.workersBusy == 0
  }

  ghost function Perform(s: State, e: Event): State
    requires Enabled(s, e)
  {
    match e
    case Count(w) => Put(s, w, DoCount(s.workers[w]))
    case AwakeOne(w, woken) => DoNudge(s, w, woken)
    case TryLifo(w) => Put(s, w, DoTryLifo(s.workers[w]))
    case TryPop(w) => Put(s, w, DoTryPop(s.workers[w]))
    case Grab(w) => GrabShare(s, w, FirstGrab, Allow)
    case AllowParking(w) => Go(PermitParking(s), w, SecondGrab)
    case GrabAgain(w) => GrabShare(s, w, SecondGrab, StealTest)
    case PushMany(w) => Put(s, w, DoPushMany(s.workers[w]))
    case TestImpudence(w) => Go(s, w, if s.flags[w] == Active then Steal(0) else LifoAgain)
    case AskVictim(w, seed) => Go(s, w, DoAskVictim(s, w, seed))
    case GiveUpStealing(w) => Go(s, w, LifoAgain)
    case LowSize(w, size) => Go(s, w, DoLowSize(s.workers[w].pc, size))
    case GrabFromVictim(w, taken) => DoTake(s, w, taken)
    case RetestLifo(w) => Go(s, w, if s.workers[w].lifo.Some? then Top else Park)
    case TryParkMe(w) => DoPark(s, w)
    case SpuriousWakeup(w) => Go(s, w, Notified)
    case Reenlist(w) => Go(Enlist(s, w), w, Top)
    case Spawn(w, task, hint) => DoSpawn(s, w, task, hint)
    case ProhibitFromWorker(w, woken) => DoProhibit(s, w, woken)
    case Finish(w, threw) => DoFinish(s, w, threw)
    case Submit(x, task) => SetOutside(PushGlobal(s, task, None, task), x, Pushed(task))
    case ProhibitFromOutside(x, woken) => DoProhibitOutside(s, x, woken)
    case CallWaitIdle(x) => SetOutside(s, x, WaitQueue(s.returned))
    case SeeQueueIdle(x) => SetOutside(s, x, WaitWorkers(s.outside[x].due))
    case SeeWorkersIdle(x) => SetOutside(s, x, Free)
  }

  ghost predicate Step(s: State, e: Event, s': State) {
    Enabled(s, e) && s' == Perform(s, e)
  }

  // ----- invariants

  ghost predicate Linked(s: State, w: Id) {
    w in s.active || w in s.passive
  }

  ghost predicate FlagsAgree(s: State) {
    && |s.flags| == |s.workers|
    && (forall w :: 0 <= w < |s.flags| && w in s.active ==> s.flags[w] == Active)
    && (forall w :: 0 <= w < |s.flags| && w in s.passive ==> s.flags[w] == Passive)
  }

  /** The coordinator's lists hold exactly the workers that are not counted out, each once, with matching flag
      and matching count. */
  ghost predicate ListsInv(s: State) {
    && NoDup(s.active + s.passive)
    && (forall w :: Linked(s, w) ==> 0 <= w < |s.workers|)
    && (forall w :: 0 <= w < |s.workers| ==> (Linked(s, w) <==> !Unlinked(s.workers[w].pc)))
    && s.workersBusy == |s.active| + |s.passive|
    && FlagsAgree(s)
  }

  /** What one worker's own queue, slot and buffers satisfy at each program point. */
  ghost predicate WorkerOk(r: WorkerState) {
    && |r.local| <= LOCAL_CAPACITY
    && r.lifoUsage <= LIFO_LIMIT && r.cycle < NUDGE_PERIOD
    && (LocalSeenEmpty(r.pc) ==> r.local == [])
    && (r.pc.Park? || Unlinked(r.pc) ==> r.lifo.None?)
    && (r.pc.Fill? ==> 1 <= |r.pc.buffer| <= LOCAL_CAPACITY / 2)
    && (r.pc.Take? ==> r.pc.limit <= LOCAL_CAPACITY / 2)
  }

  ghost predicate LocalInv(s: State) {
    && |s.workers| > 0
    && (forall w :: 0 <= w < |s.workers| ==> WorkerOk(s.workers[w]))
    && (forall w :: 0 <= w < |s.workers| && s.workers[w].pc.Measure? ==>
          0 <= s.workers[w].pc.victim < |s.workers| && s.workers[w].pc.victim != w)
    && (forall w :: 0 <= w < |s.workers| && s.workers[w].pc.Take? ==>
          0 <= s.workers[w].pc.victim < |s.workers| && s.workers[w].pc.victim != w)
    && s.queueBusy == (if s.queue == [] then 0 else 1)
    && s.permission != PermanentlyProhibited
  }

  ghost predicate OutsidersQuiet(s: State) {
    forall x :: x in s.outside ==> !s.outside[x].Pushed?
  }

  /** A worker that will look at the global queue again before it can sleep. */
  ghost predicate WillGrab(s: State, w: Id) {
    && 0 <= w < |s.workers|
    && (Eager(s.workers[w].pc) || s.workers[w].pc.Notified? || (Drained(s.workers[w].pc) && s.permission != Allowed))
  }

  /** No lost wakeup. */
  ghost predicate WakeupInv(s: State) {
    s.queue != [] && OutsidersQuiet(s) ==> exists w :: WillGrab(s, w)
  }

  /** Tasks a worker left in the global queue keep that worker eager. */
  ghost predicate PusherInv(s: State) {
    && (forall t :: t in s.queue ==> t in s.pusher)
    && (forall t :: t in s.queue && s.pusher[t].Some? ==>
          0 <= s.pusher[t].value < |s.workers| && Eager(s.workers[s.pusher[t].value].pc))
    && (forall t :: t in s.queue && s.pusher[t].None? ==> t in s.root && s.root[t] == t)
  }

  ghost function Held(r: WorkerState): multiset<Task> {
    multiset(r.local)
    + (if r.lifo.Some? then multiset{r.lifo.value} else multiset{})
    + (if r.pc.Fill? then multiset(r.pc.buffer)
       else if r.pc.Run? || r.pc.SlowPushed? then multiset{r.pc.task} else multiset{})
  }

  ghost function HeldByAll(ws: seq<WorkerState>): multiset<Task> {
    if ws == [] then multiset{} else HeldByAll(ws[..|ws| - 1]) + Held(ws[|ws| - 1])
  }

  ghost function Finished(s: State): multiset<Task> {
    s.executed + s.discarded
  }

  /** Each submitted task is in exactly one place. */
  ghost predicate ConservationInv(s: State) {
    multiset(s.queue) + HeldByAll(s.workers) + Finished(s) == multiset(s.root.Keys)
  }

  /** A waiter past the first half of WaitIdle has no due task left in the global queue. */
  ghost predicate WaiterInv(s: State) {
    && s.returned <= s.root.Keys
    && (forall x :: x in s.outside && s.outside[x].Pushed? ==> s.outside[x].task in s.root)
    && (forall x :: x in s.outside && s.outside[x].WaitQueue? ==> s.outside[x].due <= s.root.Keys)
    && (forall x :: x in s.outside && s.outside[x].WaitWorkers? ==> s.outside[x].due <= s.root.Keys)
    && (forall x, t :: x in s.outside && s.outside[x].WaitWorkers? && t in s.outside[x].due && t in s.queue ==>
          t in s.pusher && s.pusher[t].Some?)
  }

  ghost predicate Inv(s: State) {
    && LocalInv(s)
    && ListsInv(s)
    && WakeupInv(s)
    && PusherInv(s)
    && ConservationInv(s)
    && WaiterInv(s)
  }
}
