/** The pool over its rings. Here a worker's local queue is a ring, and TryPush, PushMany, TryPop, Grab and LowSize on it
    are made of single atomic accesses that interleave with everything else in the pool. Seen with the contents of the
    rings in the place of the local queues, every such access is one step of the pool model or none, so what holds on
    every run of WorkerPool holds here. As there, runs are those before Stop in which no TryPush is refused. */
module PoolOverRings {
  import opened Lists
  import opened GlobalTasks
  import P = WorkerPool
  import PP = WorkerPoolProofs
  import R = RingBuffer
  import Runs

  type Id = int

  /** The push to its own ring that a running task has asked its worker for. */
  datatype Call = NoCall | Pushing(task: P.Task, hint: P.Hint)

  datatype State = State(
    pool: P.State,                       // with all local queues left empty
    rings: seq<R.State>,                 // the local queues
    calls: seq<Call>)

  datatype Event =
    | Pool(step: P.Event)                 // a step of the pool that does not involve a ring
    | CallTryPop(w: Id)
    | CallLowSize(w: Id)
    | CallGrab(w: Id)
    | CallTryPush(w: Id, task: P.Task, hint: P.Hint)
    | CallPushMany(w: Id)
    | Access(v: Id, access: R.Event)     // one access to ring v inside one of these calls

  // ----- the pool that one sees

  ghost predicate Windows(rings: seq<R.State>) {
    forall w :: 0 <= w < |rings| ==> R.Windowed(rings[w])
  }

  ghost function Filled(workers: seq<P.WorkerState>, rings: seq<R.State>): seq<P.WorkerState>
    requires |rings| == |workers| && Windows(rings)
  {
    seq(|workers|, w requires 0 <= w < |workers| => workers[w].(local := R.Contents(rings[w])))
  }

  ghost predicate Shaped(s: State) {
    |s.rings| == |s.pool.workers| == |s.calls| && Windows(s.rings)
  }

  /** The pool with the contents of the rings as local queues. */
  ghost function Abs(s: State): P.State
    requires Shaped(s)
  {
    s.pool.(workers := Filled(s.pool.workers, s.rings))
  }

  lemma FilledPut(workers: seq<P.WorkerState>, rings: seq<R.State>, w: Id, r: P.WorkerState)
    requires |rings| == |workers| && Windows(rings) && 0 <= w < |workers|
    ensures Filled(workers[w := r], rings) == Filled(workers, rings)[w := r.(local := R.Contents(rings[w]))]
  {
  }

  lemma FilledRing(workers: seq<P.WorkerState>, rings: seq<R.State>, v: Id, ring: R.State)
    requires |rings| == |workers| && Windows(rings) && 0 <= v < |workers| && R.Windowed(ring)
    ensures Windows(rings[v := ring])
    ensures Filled(workers, rings[v := ring]) == Filled(workers, rings)[v := workers[v].(local := R.Contents(ring))]
  {
  }

  // ----- steps

  ghost predicate Init(s: State) {
    && P.Init(s.pool) && |s.rings| == |s.calls| == |s.pool.workers|
    && (forall v :: 0 <= v < |s.rings| ==>
          && R.Init(s.rings[v]) && s.rings[v].capacity == P.LOCAL_CAPACITY
          && forall c :: c in s.rings[v].consumers <==> 0 <= c < |s.rings|)
    && forall w :: 0 <= w < |s.calls| ==> s.calls[w] == NoCall
  }

  ghost function PcAt(s: State, w: Id): P.Pc {
    if 0 <= w < |s.pool.workers| then s.pool.workers[w].pc else P.Top
  }

  ghost predicate Idles(s: State, v: Id, c: Id) {
    0 <= v < |s.rings| && R.Is(s.rings[v], c, R.Idle)
  }

  ghost predicate Free(s: State, w: Id) {
    0 <= w < |s.calls| && s.calls[w] == NoCall
  }

  /** Steps of the pool that do not involve a ring; a task that is being pushed keeps its worker. */
  ghost predicate RingFree(s: State, e: P.Event) {
    match e
    case TryPop(_) => false
    case LowSize(_, _) => false
    case GrabFromVictim(_, _) => false
    case PushMany(w) => PcAt(s, w).Fill? && |PcAt(s, w).buffer| == 1
    case Spawn(w, _, hint) =>
      Free(s, w) && (hint == P.Slow || (hint == P.Next && 0 <= w < |s.pool.workers| && s.pool.workers[w].lifo.None?))
    case Finish(w, _) => Free(s, w)
    case _ => true
  }

  /** What is pushed: the new task, or the old one that it drives out of the slot. */
  ghost predicate Pushes(r: P.WorkerState, task: P.Task, hint: P.Hint, item: P.Task) {
    (hint == P.UpToYou && item == task) || (hint == P.Next && r.lifo == Some(item))
  }

  ghost predicate CanPush(s: State, w: Id, task: P.Task, hint: P.Hint) {
    && Free(s, w) && 0 <= w < |s.pool.workers| && 0 <= w < |s.rings| && s.rings[w].producer.Quiet?
    && PcAt(s, w).Run? && PcAt(s, w).task in s.pool.root && task !in s.pool.root
    && (hint == P.UpToYou || (hint == P.Next && s.pool.workers[w].lifo.Some?))
  }

  ghost function PushedItem(s: State, w: Id, task: P.Task, hint: P.Hint): P.Task
    requires CanPush(s, w, task, hint)
  {
    if hint == P.UpToYou then task else s.pool.workers[w].lifo.value
  }

  ghost predicate IsCall(e: R.Event) {
    e.CallTryPop? || e.CallLowSize? || e.CallGrab? || e.CallTryPush? || e.CallPushMany?
  }

  /** No TryPush is refused, and no task is handed in twice. */
  ghost predicate Admitted(s: State, v: Id, e: R.Event)
    requires 0 <= v < |s.rings| && 0 <= v < |s.calls|
  {
    && (e.PushLoadEnd? && s.rings[v].producer.PushEnd? ==>
          s.rings[v].end < s.rings[v].producer.begin + s.rings[v].capacity)
    && (e.Publish? && s.calls[v].Pushing? ==> s.calls[v].task !in s.pool.root)
  }

  ghost predicate Enabled(s: State, e: Event) {
    match e
    case Pool(e) => RingFree(s, e) && P.Enabled(s.pool, e)
    case CallTryPop(w) => PcAt(s, w).PopLocal? && Idles(s, w, w)
    case CallLowSize(w) => PcAt(s, w).Measure? && Idles(s, PcAt(s, w).victim, w)
    case CallGrab(w) => PcAt(s, w).Take? && Idles(s, PcAt(s, w).victim, w)
    case CallTryPush(w, task, hint) => CanPush(s, w, task, hint)
    case CallPushMany(w) =>
      PcAt(s, w).Fill? && |PcAt(s, w).buffer| > 1 && 0 <= w < |s.rings| && s.rings[w].producer.Quiet?
    case Access(v, e) =>
      0 <= v < |s.rings| && 0 <= v < |s.calls| && !IsCall(e) && R.Enabled(s.rings[v], e) && Admitted(s, v, e)
  }

  ghost function OnRing(s: State, v: Id, e: R.Event): State
    requires 0 <= v < |s.rings| && R.Enabled(s.rings[v], e)
  {
    s.(rings := s.rings[v := R.Perform(s.rings[v], e)])
  }

  ghost function Go(s: State, w: Id, pc: P.Pc): State {
    if 0 <= w < |s.pool.workers| then s.(pool := P.Go(s.pool, w, pc)) else s
  }

  /** The end of a TryPop: what it has got, if anything, is run next. */
  ghost function Popped(s: State, w: Id, item: Option<P.Task>): State {
    Go(s, w, if item.None? then P.FirstGrab else P.Run(item.value))
  }

  ghost function Measured(s: State, w: Id, size: nat): State {
    var pc := PcAt(s, w);
    if pc.Measure? then Go(s, w, P.DoLowSize(pc, size)) else s
  }

  ghost function Grabbed(s: State, w: Id, buffer: seq<P.Task>): State {
    var pc := PcAt(s, w);
    if !pc.Take? then s
    else Go(s, w, if buffer == [] then P.Steal(pc.tries + 1) else P.Fill(buffer))
  }

  /** The end of PushMany: the first of the batch is run next. */
  ghost function Stocked(s: State, w: Id): State {
    var pc := PcAt(s, w);
    if pc.Fill? && pc.buffer != [] then Go(s, w, P.Run(pc.buffer[0])) else s
  }

  /** The end of a TryPush: the task is the pool's, the slot is taken over. */
  ghost function Pushed(s: State, w: Id): State {
    if 0 <= w < |s.calls| && s.calls[w].Pushing? && PcAt(s, w).Run? && PcAt(s, w).task in s.pool.root
       && 0 <= w < |s.pool.workers|
    then
      var call, r := s.calls[w], s.pool.workers[w];
      var pool := P.Put(s.pool, w, if call.hint == P.Next then r.(lifo := Some(call.task)) else r);
      s.(calls := s.calls[w := NoCall], pool := pool.(root := s.pool.root[call.task := s.pool.root[r.pc.task]]))
    else s
  }

  /** What the worker does with the end of its call; an access in the middle of one changes nothing else. */
  ghost function Finished(s: State, v: Id, e: R.Event): State
    requires 0 <= v < |s.rings| && R.Enabled(s.rings[v], e)
  {
    var ring := s.rings[v];
    match e
    case PopLoadEnd(c) => if ring.end == ring.consumers[c].begin then Popped(s, c, None) else s
    case PopExchange(c, spurious) =>
      if ring.consumers[c].begin == ring.begin && !spurious then Popped(s, c, Some(ring.consumers[c].item)) else s
    case SizeLoadBegin(c) =>
      Measured(s, c, R.SizeSeen(ring, c))
    case GrabLoadEnd(c) => if ring.end <= ring.consumers[c].begin then Grabbed(s, c, []) else s
    case GrabExchange(c) => if ring.consumers[c].begin == ring.begin then Grabbed(s, c, ring.consumers[c].buffer) else s
    case Publish => Pushed(s, v)
    case PublishMany => Stocked(s, v)
    case _ => s
  }

  ghost function Perform(s: State, e: Event): State
    requires Enabled(s, e)
  {
    match e
    case Pool(e) => s.(pool := P.Perform(s.pool, e))
    case CallTryPop(w) => OnRing(s, w, R.CallTryPop(w))
    case CallLowSize(w) => OnRing(s, PcAt(s, w).victim, R.CallLowSize(w))
    case CallGrab(w) => OnRing(s, PcAt(s, w).victim, R.CallGrab(w, PcAt(s, w).limit))
    case CallTryPush(w, task, hint) =>
      OnRing(s, w, R.CallTryPush(PushedItem(s, w, task, hint))).(calls := s.calls[w := Pushing(task, hint)])
    case CallPushMany(w) => OnRing(s, w, R.CallPushMany(PcAt(s, w).buffer[1..]))
    case Access(v, e) => Finished(s, v, e).(rings := s.rings[v := R.Perform(s.rings[v], e)])
  }

  ghost predicate Step(s: State, e: Event, s': State) {
    Enabled(s, e) && s' == Perform(s, e)
  }

  // ----- invariant

  /** A consumer is where its worker's program point says it is. */
  ghost predicate ConsumerFits(s: State, v: Id, c: Id)
    requires 0 <= v < |s.rings| && c in s.rings[v].consumers
  {
    var pc := PcAt(s, c);
    match s.rings[v].consumers[c]
    case Idle => true
    case SizeEnd => pc.Measure? && pc.victim == v
    case SizeBegin(_) => pc.Measure? && pc.victim == v
    case GrabBegin(room) => pc.Take? && pc.victim == v && pc.limit == room
    case GrabEnd(room, _) => pc.Take? && pc.victim == v && pc.limit == room
    case GrabRead(room, _, _, _) => pc.Take? && pc.victim == v && pc.limit == room
    case _ => c == v && pc.PopLocal?
  }

  ghost predicate PushFits(s: State, v: Id, item: P.Task)
    requires 0 <= v < |s.pool.workers| && 0 <= v < |s.calls|
  {
    && s.calls[v].Pushing? && s.pool.workers[v].pc.Run? && s.pool.workers[v].pc.task in s.pool.root
    && Pushes(s.pool.workers[v], s.calls[v].task, s.calls[v].hint, item)
  }

  ghost predicate ManyFits(s: State, v: Id, items: seq<P.Task>) {
    PcAt(s, v).Fill? && |PcAt(s, v).buffer| > 1 && items == PcAt(s, v).buffer[1..]
  }

  /** So is the producer; its assertion has not failed. */
  ghost predicate ProducerFits(s: State, v: Id)
    requires 0 <= v < |s.rings| && 0 <= v < |s.pool.workers| && 0 <= v < |s.calls|
  {
    match s.rings[v].producer
    case Quiet => s.calls[v] == NoCall
    case PushBegin(item) => PushFits(s, v, item)
    case PushEnd(item, _, _) => PushFits(s, v, item)
    case PushStore(item, _) => PushFits(s, v, item)
    case PushPublish(item, _) => PushFits(s, v, item)
    case ManyEnd(items) => ManyFits(s, v, items) && s.calls[v] == NoCall
    case ManyCheck(items, _) => ManyFits(s, v, items) && s.calls[v] == NoCall
    case ManyStore(items, _, _) => ManyFits(s, v, items) && s.calls[v] == NoCall
    case Aborted => false
  }

  ghost predicate RingOk(s: State, v: Id)
    requires 0 <= v < |s.rings|
  {
    && R.Inv(s.rings[v]) && s.rings[v].capacity == P.LOCAL_CAPACITY
    && forall c :: c in s.rings[v].consumers <==> 0 <= c < |s.rings|
  }

  ghost predicate RingsInv(s: State) {
    && |s.rings| == |s.pool.workers| == |s.calls|
    && (forall v :: 0 <= v < |s.rings| ==> RingOk(s, v))
    && (forall w :: 0 <= w < |s.pool.workers| ==> s.pool.workers[w].local == [])
  }

  ghost predicate FitsInv(s: State)
    requires RingsInv(s)
  {
    && (forall v, c :: 0 <= v < |s.rings| && c in s.rings[v].consumers ==> ConsumerFits(s, v, c))
    && (forall v :: 0 <= v < |s.rings| ==> ProducerFits(s, v))
  }

  lemma RingsWindowed(s: State)
    requires RingsInv(s)
    ensures Shaped(s)
  {
    forall w | 0 <= w < |s.rings| ensures R.Windowed(s.rings[w]) {
      assert RingOk(s, w);
    }
  }

  ghost predicate Inv(s: State) {
    RingsInv(s) && FitsInv(s) && Shaped(s) && P.Inv(Abs(s))
  }

  lemma InitHolds(s: State)
    requires Init(s)
    ensures Inv(s) && Abs(s) == s.pool
  {
    forall v | 0 <= v < |s.rings| ensures RingOk(s, v) && R.Contents(s.rings[v]) == [] { }
    RingsWindowed(s);
    assert Filled(s.pool.workers, s.rings) == s.pool.workers;
    PP.InitHolds(s.pool);
  }

  // ----- steps of the pool that do not involve a ring commute with looking into the rings

  ghost predicate Empty(workers: seq<P.WorkerState>) {
    forall w :: 0 <= w < |workers| ==> workers[w].local == []
  }

  ghost function With(pool: P.State, rings: seq<R.State>): P.State
    requires |rings| == |pool.workers| && Windows(rings)
  {
    pool.(workers := Filled(pool.workers, rings))
  }

  ghost predicate Commutes(pool: P.State, rings: seq<R.State>, e: P.Event)
    requires |rings| == |pool.workers| && Windows(rings) && P.Enabled(pool, e)
  {
    var pool' := P.Perform(pool, e);
    && |pool'.workers| == |pool.workers| && Empty(pool'.workers)
    && P.Enabled(With(pool, rings), e) && P.Perform(With(pool, rings), e) == With(pool', rings)
  }

  lemma PutCommutes(pool: P.State, rings: seq<R.State>, w: Id, r: P.WorkerState)
    requires |rings| == |pool.workers| && Windows(rings) && 0 <= w < |pool.workers|
    ensures With(P.Put(pool, w, r), rings) == P.Put(With(pool, rings), w, r.(local := R.Contents(rings[w])))
  {
    FilledPut(pool.workers, rings, w, r);
  }

  lemma GoCommutes(pool: P.State, rings: seq<R.State>, w: Id, pc: P.Pc)
    requires |rings| == |pool.workers| && Windows(rings) && 0 <= w < |pool.workers|
    ensures With(P.Go(pool, w, pc), rings) == P.Go(With(pool, rings), w, pc)
  {
    PutCommutes(pool, rings, w, pool.workers[w].(pc := pc));
  }

  /** The same workers sleep. */
  lemma NotifyCommutes(pool: P.State, rings: seq<R.State>, woken: Option<Id>)
    requires |rings| == |pool.workers| && Windows(rings) && Empty(pool.workers) && P.CanNotify(pool, woken)
    ensures P.CanNotify(With(pool, rings), woken)
    ensures var pool' := P.Notify(pool, woken);
            && |pool'.workers| == |pool.workers| && Empty(pool'.workers)
            && P.Notify(With(pool, rings), woken) == With(pool', rings)
  {
    forall w | 0 <= w < |pool.workers| ensures With(pool, rings).workers[w].pc == pool.workers[w].pc { }
    if woken.Some? {
      GoCommutes(pool, rings, woken.value, P.Notified);
    }
  }

  lemma CountCommutes(pool: P.State, rings: seq<R.State>, w: Id)
    requires |rings| == |pool.workers| && Windows(rings) && Empty(pool.workers) && P.Enabled(pool, P.Count(w))
    ensures Commutes(pool, rings, P.Count(w))
  {
    PutCommutes(pool, rings, w, P.DoCount(pool.workers[w]));
  }

  lemma TryLifoCommutes(pool: P.State, rings: seq<R.State>, w: Id)
    requires |rings| == |pool.workers| && Windows(rings) && Empty(pool.workers) && P.Enabled(pool, P.TryLifo(w))
    ensures Commutes(pool, rings, P.TryLifo(w))
  {
  }

  lemma GrabCommutes(pool: P.State, rings: seq<R.State>, w: Id)
    requires |rings| == |pool.workers| && Windows(rings) && Empty(pool.workers) && P.Enabled(pool, P.Grab(w))
    ensures Commutes(pool, rings, P.Grab(w))
  {
    GoCommutes(pool, rings, w, P.Allow);
    GoCommutes(pool, rings, w, P.Fill(pool.queue[..P.QueueShare(pool)]));
  }

  lemma GrabAgainCommutes(pool: P.State, rings: seq<R.State>, w: Id)
    requires |rings| == |pool.workers| && Windows(rings) && Empty(pool.workers) && P.Enabled(pool, P.GrabAgain(w))
    ensures Commutes(pool, rings, P.GrabAgain(w))
  {
    GoCommutes(pool, rings, w, P.StealTest);
    GoCommutes(pool, rings, w, P.Fill(pool.queue[..P.QueueShare(pool)]));
  }

  lemma AllowParkingCommutes(pool: P.State, rings: seq<R.State>, w: Id)
    requires |rings| == |pool.workers| && Windows(rings) && Empty(pool.workers) && P.Enabled(pool, P.AllowParking(w))
    ensures Commutes(pool, rings, P.AllowParking(w))
  {
  }

  lemma PushManyCommutes(pool: P.State, rings: seq<R.State>, w: Id)
    requires |rings| == |pool.workers| && Windows(rings) && Empty(pool.workers) && P.Enabled(pool, P.PushMany(w))
    requires |pool.workers[w].pc.buffer| == 1
    ensures Commutes(pool, rings, P.PushMany(w))
  {
    assert pool.workers[w].pc.buffer[1..] == [];
    assert R.Contents(rings[w]) + [] == R.Contents(rings[w]);
    PutCommutes(pool, rings, w, P.DoPushMany(pool.workers[w]));
  }

  lemma TestImpudenceCommutes(pool: P.State, rings: seq<R.State>, w: Id)
    requires |rings| == |pool.workers| && Windows(rings) && Empty(pool.workers) && P.Enabled(pool, P.TestImpudence(w))
    ensures Commutes(pool, rings, P.TestImpudence(w))
  {
  }

  lemma AskVictimCommutes(pool: P.State, rings: seq<R.State>, w: Id, seed: nat)
    requires |rings| == |pool.workers| && Windows(rings) && Empty(pool.workers) && P.Enabled(pool, P.AskVictim(w, seed))
    ensures Commutes(pool, rings, P.AskVictim(w, seed))
  {
  }

  lemma GiveUpStealingCommutes(pool: P.State, rings: seq<R.State>, w: Id)
    requires |rings| == |pool.workers| && Windows(rings) && Empty(pool.workers) && P.Enabled(pool, P.GiveUpStealing(w))
    ensures Commutes(pool, rings, P.GiveUpStealing(w))
  {
  }

  lemma RetestLifoCommutes(pool: P.State, rings: seq<R.State>, w: Id)
    requires |rings| == |pool.workers| && Windows(rings) && Empty(pool.workers) && P.Enabled(pool, P.RetestLifo(w))
    ensures Commutes(pool, rings, P.RetestLifo(w))
  {
  }

  lemma TryParkMeCommutes(pool: P.State, rings: seq<R.State>, w: Id)
    requires |rings| == |pool.workers| && Windows(rings) && Empty(pool.workers) && P.Enabled(pool, P.TryParkMe(w))
    ensures Commutes(pool, rings, P.TryParkMe(w))
  {
    GoCommutes(pool, rings, w, P.Top);
    GoCommutes(pool, rings, w, P.Asleep);
  }

  lemma SpuriousWakeupCommutes(pool: P.State, rings: seq<R.State>, w: Id)
    requires |rings| == |pool.workers| && Windows(rings) && Empty(pool.workers) && P.Enabled(pool, P.SpuriousWakeup(w))
    ensures Commutes(pool, rings, P.SpuriousWakeup(w))
  {
  }

  lemma ReenlistCommutes(pool: P.State, rings: seq<R.State>, w: Id)
    requires |rings| == |pool.workers| && Windows(rings) && Empty(pool.workers) && P.Enabled(pool, P.Reenlist(w))
    ensures Commutes(pool, rings, P.Reenlist(w))
  {
  }

  lemma AwakeOneCommutes(pool: P.State, rings: seq<R.State>, w: Id, woken: Option<Id>)
    requires |rings| == |pool.workers| && Windows(rings) && Empty(pool.workers) && P.Enabled(pool, P.AwakeOne(w, woken))
    ensures Commutes(pool, rings, P.AwakeOne(w, woken))
  {
    NotifyCommutes(pool, rings, woken);
    GoCommutes(P.Notify(pool, woken), rings, w, P.TakeLifo);
  }

  lemma WakeCommutes(pool: P.State, rings: seq<R.State>, woken: Option<Id>)
    requires |rings| == |pool.workers| && Windows(rings) && Empty(pool.workers) && P.CanNotify(pool, woken)
    ensures P.CanNotify(With(pool, rings), woken)
    ensures var pool' := P.Notify(P.Prohibit(pool), woken);
            && |pool'.workers| == |pool.workers| && Empty(pool'.workers)
            && P.Notify(P.Prohibit(With(pool, rings)), woken) == With(pool', rings)
  {
    assert With(P.Prohibit(pool), rings) == P.Prohibit(With(pool, rings));
    NotifyCommutes(P.Prohibit(pool), rings, woken);
  }

  lemma ResumeCommutes(pool: P.State, rings: seq<R.State>, w: Id, woken: Option<Id>)
    requires |rings| == |pool.workers| && Windows(rings) && Empty(pool.workers) && P.CanProhibit(pool, w, woken)
    ensures P.CanProhibit(With(pool, rings), w, woken) && |P.DoProhibit(pool, w, woken).workers| == |pool.workers|
    ensures P.DoProhibit(With(pool, rings), w, woken) == With(P.DoProhibit(pool, w, woken), rings)
    ensures Empty(P.DoProhibit(pool, w, woken).workers)
  {
    WakeCommutes(pool, rings, woken);
    GoCommutes(P.Notify(P.Prohibit(pool), woken), rings, w, P.Run(pool.workers[w].pc.task));
  }

  lemma ProhibitFromWorkerCommutes(pool: P.State, rings: seq<R.State>, w: Id, woken: Option<Id>)
    requires |rings| == |pool.workers| && Windows(rings) && Empty(pool.workers) && P.Enabled(pool, P.ProhibitFromWorker(w, woken))
    ensures Commutes(pool, rings, P.ProhibitFromWorker(w, woken))
  {
    ResumeCommutes(pool, rings, w, woken);
  }

  lemma FinishCommutes(pool: P.State, rings: seq<R.State>, w: Id, threw: bool)
    requires |rings| == |pool.workers| && Windows(rings) && Empty(pool.workers) && P.Enabled(pool, P.Finish(w, threw))
    ensures Commutes(pool, rings, P.Finish(w, threw))
  {
    GoCommutes(pool, rings, w, P.Top);
  }

  lemma SpawnCommutes(pool: P.State, rings: seq<R.State>, w: Id, task: P.Task, hint: P.Hint)
    requires |rings| == |pool.workers| && Windows(rings) && Empty(pool.workers) && P.Enabled(pool, P.Spawn(w, task, hint))
    requires hint == P.Slow || (hint == P.Next && pool.workers[w].lifo.None?)
    ensures Commutes(pool, rings, P.Spawn(w, task, hint))
  {
  }

  lemma SubmitCommutes(pool: P.State, rings: seq<R.State>, x: Id, task: P.Task)
    requires |rings| == |pool.workers| && Windows(rings) && Empty(pool.workers) && P.Enabled(pool, P.Submit(x, task))
    ensures Commutes(pool, rings, P.Submit(x, task))
  {
  }

  lemma ProhibitFromOutsideCommutes(pool: P.State, rings: seq<R.State>, x: Id, woken: Option<Id>)
    requires |rings| == |pool.workers| && Windows(rings) && Empty(pool.workers) && P.Enabled(pool, P.ProhibitFromOutside(x, woken))
    ensures Commutes(pool, rings, P.ProhibitFromOutside(x, woken))
  {
    NotifyCommutes(P.Prohibit(pool), rings, woken);
  }

  lemma CallWaitIdleCommutes(pool: P.State, rings: seq<R.State>, x: Id)
    requires |rings| == |pool.workers| && Windows(rings) && Empty(pool.workers) && P.Enabled(pool, P.CallWaitIdle(x))
    ensures Commutes(pool, rings, P.CallWaitIdle(x))
  {
  }

  lemma SeeQueueIdleCommutes(pool: P.State, rings: seq<R.State>, x: Id)
    requires |rings| == |pool.workers| && Windows(rings) && Empty(pool.workers) && P.Enabled(pool, P.SeeQueueIdle(x))
    ensures Commutes(pool, rings, P.SeeQueueIdle(x))
  {
  }

  lemma SeeWorkersIdleCommutes(pool: P.State, rings: seq<R.State>, x: Id)
    requires |rings| == |pool.workers| && Windows(rings) && Empty(pool.workers) && P.Enabled(pool, P.SeeWorkersIdle(x))
    ensures Commutes(pool, rings, P.SeeWorkersIdle(x))
  {
  }

  lemma LoopCommutes(s: State, e: P.Event)
    requires RingsInv(s) && Shaped(s) && RingFree(s, e) && P.Enabled(s.pool, e) && PP.StartsLoop(e)
    ensures Commutes(s.pool, s.rings, e)
  {
    var pool, rings := s.pool, s.rings;
    match e
    case Count(w) => CountCommutes(pool, rings, w);
    case AwakeOne(w, woken) => AwakeOneCommutes(pool, rings, w, woken);
    case TryLifo(w) => TryLifoCommutes(pool, rings, w);
    case Grab(w) => GrabCommutes(pool, rings, w);
    case AllowParking(w) => AllowParkingCommutes(pool, rings, w);
    case GrabAgain(w) => GrabAgainCommutes(pool, rings, w);
    case PushMany(w) => PushManyCommutes(pool, rings, w);
  }

  lemma StealOrParkCommutes(s: State, e: P.Event)
    requires RingsInv(s) && Shaped(s) && RingFree(s, e) && P.Enabled(s.pool, e) && PP.StealsOrParks(e)
    ensures Commutes(s.pool, s.rings, e)
  {
    var pool, rings := s.pool, s.rings;
    match e
    case TestImpudence(w) => TestImpudenceCommutes(pool, rings, w);
    case AskVictim(w, seed) => AskVictimCommutes(pool, rings, w, seed);
    case GiveUpStealing(w) => GiveUpStealingCommutes(pool, rings, w);
    case RetestLifo(w) => RetestLifoCommutes(pool, rings, w);
    case TryParkMe(w) => TryParkMeCommutes(pool, rings, w);
    case SpuriousWakeup(w) => SpuriousWakeupCommutes(pool, rings, w);
    case Reenlist(w) => ReenlistCommutes(pool, rings, w);
  }

  lemma SubmissionCommutes(s: State, e: P.Event)
    requires RingsInv(s) && Shaped(s) && RingFree(s, e) && P.Enabled(s.pool, e)
    requires !PP.StartsLoop(e) && !PP.StealsOrParks(e)
    ensures Commutes(s.pool, s.rings, e)
  {
    var pool, rings := s.pool, s.rings;
    match e
    case Spawn(w, task, hint) => SpawnCommutes(pool, rings, w, task, hint);
    case ProhibitFromWorker(w, woken) => ProhibitFromWorkerCommutes(pool, rings, w, woken);
    case Finish(w, threw) => FinishCommutes(pool, rings, w, threw);
    case Submit(x, task) => SubmitCommutes(pool, rings, x, task);
    case ProhibitFromOutside(x, woken) => ProhibitFromOutsideCommutes(pool, rings, x, woken);
    case CallWaitIdle(x) => CallWaitIdleCommutes(pool, rings, x);
    case SeeQueueIdle(x) => SeeQueueIdleCommutes(pool, rings, x);
    case SeeWorkersIdle(x) => SeeWorkersIdleCommutes(pool, rings, x);
  }

  lemma PoolCommutes(s: State, e: P.Event)
    requires RingsInv(s) && Shaped(s) && RingFree(s, e) && P.Enabled(s.pool, e)
    ensures Commutes(s.pool, s.rings, e)
  {
    if PP.StartsLoop(e) {
      LoopCommutes(s, e);
    } else if PP.StealsOrParks(e) {
      StealOrParkCommutes(s, e);
    } else {
      SubmissionCommutes(s, e);
    }
  }

  // ----- and leave the workers that are inside a call on a ring alone

  ghost predicate Busy(s: State, w: Id) {
    && 0 <= w < |s.pool.workers|
    && (PcAt(s, w).PopLocal? || PcAt(s, w).Measure? || PcAt(s, w).Take?
        || (PcAt(s, w).Fill? && |PcAt(s, w).buffer| > 1) || (PcAt(s, w).Run? && !Free(s, w)))
  }

  lemma NotifySparesBusy(pool: P.State, woken: Option<Id>, w: Id)
    requires P.CanNotify(pool, woken) && 0 <= w < |pool.workers| && !pool.workers[w].pc.Asleep?
    ensures |P.Notify(pool, woken).workers| == |pool.workers| && P.Notify(pool, woken).workers[w] == pool.workers[w]
  {
  }

  lemma BusyThroughNudge(s: State, v: Id, woken: Option<Id>, w: Id)
    requires P.CanNudge(s.pool, v, woken) && Busy(s, w)
    ensures w < |P.DoNudge(s.pool, v, woken).workers| && P.DoNudge(s.pool, v, woken).workers[w] == s.pool.workers[w]
  {
    NotifySparesBusy(s.pool, woken, w);
  }

  lemma BusyThroughGrab(s: State, v: Id, from: P.Pc, otherwise: P.Pc, w: Id)
    requires P.CanGrab(s.pool, v, from) && (from.FirstGrab? || from.SecondGrab?) && Busy(s, w)
    ensures var pool' := P.GrabShare(s.pool, v, from, otherwise);
            w < |pool'.workers| && pool'.workers[w] == s.pool.workers[w]
  {
  }

  lemma BusyThroughLoop(s: State, e: P.Event, w: Id)
    requires RingFree(s, e) && P.Enabled(s.pool, e) && Busy(s, w) && PP.StartsLoop(e)
    ensures w < |P.Perform(s.pool, e).workers| && P.Perform(s.pool, e).workers[w] == s.pool.workers[w]
  {
    match e
    case AwakeOne(v, woken) => BusyThroughNudge(s, v, woken, w);
    case Grab(v) => BusyThroughGrab(s, v, P.FirstGrab, P.Allow, w);
    case GrabAgain(v) => BusyThroughGrab(s, v, P.SecondGrab, P.StealTest, w);
    case _ =>
  }

  lemma BusyThroughPark(s: State, e: P.Event, w: Id)
    requires RingFree(s, e) && P.Enabled(s.pool, e) && Busy(s, w) && PP.StealsOrParks(e)
    ensures w < |P.Perform(s.pool, e).workers| && P.Perform(s.pool, e).workers[w] == s.pool.workers[w]
  {
  }

  lemma BusyThroughNotice(s: State, e: P.Event, w: Id)
    requires RingFree(s, e) && P.Enabled(s.pool, e) && Busy(s, w) && (e.ProhibitFromWorker? || e.ProhibitFromOutside?)
    ensures w < |P.Perform(s.pool, e).workers| && P.Perform(s.pool, e).workers[w] == s.pool.workers[w]
  {
    NotifySparesBusy(P.Prohibit(s.pool), e.woken, w);
  }

  lemma BusyThroughTask(s: State, e: P.Event, w: Id)
    requires RingFree(s, e) && P.Enabled(s.pool, e) && Busy(s, w) && (e.Spawn? || e.Finish?)
    ensures w < |P.Perform(s.pool, e).workers| && P.Perform(s.pool, e).workers[w] == s.pool.workers[w]
  {
    assert w != e.w;
  }

  lemma OutsidersSpareAll(pool: P.State, e: P.Event)
    requires P.Enabled(pool, e) && (e.Submit? || e.CallWaitIdle? || e.SeeQueueIdle? || e.SeeWorkersIdle?)
    ensures P.Perform(pool, e).workers == pool.workers
  {
  }

  lemma BusyThroughSubmission(s: State, e: P.Event, w: Id)
    requires RingFree(s, e) && P.Enabled(s.pool, e) && Busy(s, w) && !PP.StartsLoop(e) && !PP.StealsOrParks(e)
    ensures w < |P.Perform(s.pool, e).workers| && P.Perform(s.pool, e).workers[w] == s.pool.workers[w]
  {
    if e.ProhibitFromWorker? || e.ProhibitFromOutside? {
      BusyThroughNotice(s, e, w);
    } else if e.Spawn? || e.Finish? {
      BusyThroughTask(s, e, w);
    } else {
      OutsidersSpareAll(s.pool, e);
    }
  }

  lemma BusyStays(s: State, e: P.Event, w: Id)
    requires RingFree(s, e) && P.Enabled(s.pool, e) && Busy(s, w)
    ensures w < |P.Perform(s.pool, e).workers| && P.Perform(s.pool, e).workers[w] == s.pool.workers[w]
  {
    if PP.StartsLoop(e) {
      BusyThroughLoop(s, e, w);
    } else if PP.StealsOrParks(e) {
      BusyThroughPark(s, e, w);
    } else {
      BusyThroughSubmission(s, e, w);
    }
  }

  lemma RootStays(pool: P.State, e: P.Event)
    requires P.Enabled(pool, e)
    ensures forall t :: t in pool.root ==> t in P.Perform(pool, e).root
  {
  }

  lemma PoolFits(s: State, e: P.Event)
    requires RingsInv(s) && FitsInv(s) && Shaped(s) && Enabled(s, Pool(e))
    ensures RingsInv(Perform(s, Pool(e))) && FitsInv(Perform(s, Pool(e)))
  {
    var s' := Perform(s, Pool(e));
    PoolCommutes(s, e);
    RootStays(s.pool, e);
    forall v | 0 <= v < |s.rings| ensures RingOk(s', v) {
      assert RingOk(s, v);
    }
    forall v, c | 0 <= v < |s.rings| && c in s.rings[v].consumers ensures ConsumerFits(s', v, c) {
      assert RingOk(s, v) && ConsumerFits(s, v, c);
      if !s.rings[v].consumers[c].Idle? {
        BusyStays(s, e, c);
      }
    }
    forall v | 0 <= v < |s.rings| ensures ProducerFits(s', v) {
      assert ProducerFits(s, v);
      if !s.rings[v].producer.Quiet? {
        BusyStays(s, e, v);
      }
    }
  }

  lemma PoolStep(s: State, e: P.Event)
    requires Inv(s) && Enabled(s, Pool(e))
    ensures Inv(Perform(s, Pool(e))) && P.Step(Abs(s), e, Abs(Perform(s, Pool(e))))
  {
    PoolCommutes(s, e);
    PoolFits(s, e);
    PP.StepKeepsInv(Abs(s), e, Abs(Perform(s, Pool(e))));
  }

  // ----- accesses to a ring

  /** Only worker a has moved, and only ring v. */
  ghost predicate OneActor(s: State, s': State, v: Id, a: Id)
    requires RingsInv(s) && RingsInv(s') && |s'.rings| == |s.rings|
    requires 0 <= v < |s.rings| && 0 <= a < |s.rings|
  {
    && s'.rings == s.rings[v := s'.rings[v]]
    && (forall c :: c != a && c in s.rings[v].consumers && c in s'.rings[v].consumers ==>
          s'.rings[v].consumers[c] == s.rings[v].consumers[c])
    && (v != a ==> s'.rings[v].producer == s.rings[v].producer)
    && (forall w :: 0 <= w < |s.rings| && w != a ==>
          s'.pool.workers[w] == s.pool.workers[w] && s'.calls[w] == s.calls[w])
    && (forall t :: t in s.pool.root ==> t in s'.pool.root)
  }

  lemma FitsStep(s: State, s': State, v: Id, a: Id)
    requires RingsInv(s) && FitsInv(s) && RingsInv(s') && |s'.rings| == |s.rings|
    requires 0 <= v < |s.rings| && 0 <= a < |s.rings| && OneActor(s, s', v, a)
    requires forall u :: 0 <= u < |s.rings| && a in s'.rings[u].consumers ==> ConsumerFits(s', u, a)
    requires ProducerFits(s', a)
    ensures FitsInv(s')
  {
    forall u, c | 0 <= u < |s'.rings| && c in s'.rings[u].consumers ensures ConsumerFits(s', u, c) {
      if c != a {
        assert RingOk(s, u) && RingOk(s', u) && ConsumerFits(s, u, c);
      }
    }
    forall u | 0 <= u < |s'.rings| ensures ProducerFits(s', u) {
      assert ProducerFits(s, u);
    }
  }

  /** A worker inside a call on ring v is idle on all the others. */
  lemma OnOneRing(s: State, v: Id, u: Id, a: Id)
    requires RingsInv(s) && FitsInv(s) && 0 <= v < |s.rings| && 0 <= u < |s.rings| && u != v
    requires a in s.rings[v].consumers && a in s.rings[u].consumers && !s.rings[v].consumers[a].Idle?
    ensures s.rings[u].consumers[a].Idle?
  {
    assert ConsumerFits(s, v, a) && ConsumerFits(s, u, a);
  }

  /** A ring that has taken a step is still a ring, with its contents moved on as a queue's. */
  lemma RingStep(s: State, v: Id, e: R.Event)
    requires RingsInv(s) && 0 <= v < |s.rings| && R.Enabled(s.rings[v], e)
    ensures RingsInv(OnRing(s, v, e))
    ensures R.Windowed(s.rings[v]) && R.Windowed(R.Perform(s.rings[v], e))
    ensures R.QueueStep(R.Contents(s.rings[v]), R.EffectOf(s.rings[v], e), R.Contents(R.Perform(s.rings[v], e)), P.LOCAL_CAPACITY)
  {
    var ring, s' := s.rings[v], OnRing(s, v, e);
    assert RingOk(s, v);
    R.RefinesQueue(ring, e, R.Perform(ring, e));
    ConsumersStay(ring, e);
    forall u | 0 <= u < |s.rings| ensures RingOk(s', u) {
      assert RingOk(s, u);
    }
  }

  lemma ConsumersStay(ring: R.State, e: R.Event)
    requires R.Enabled(ring, e)
    ensures R.Perform(ring, e).consumers.Keys == ring.consumers.Keys
  {
  }

  // ----- calls: nothing is seen of them

  /** A step of a ring that moves no items is not seen. */
  lemma UnseenStep(s: State, v: Id, e: R.Event)
    requires Inv(s) && 0 <= v < |s.rings| && R.Enabled(s.rings[v], e) && R.EffectOf(s.rings[v], e).Nothing?
    ensures Shaped(OnRing(s, v, e)) && Abs(OnRing(s, v, e)) == Abs(s)
  {
    RingStep(s, v, e);
    RingsWindowed(OnRing(s, v, e));
    FilledRing(s.pool.workers, s.rings, v, R.Perform(s.rings[v], e));
  }

  /** The rings are what they were, whatever the workers do. */
  lemma RingsSame(s: State, s': State)
    requires RingsInv(s) && s'.rings == s.rings && |s'.pool.workers| == |s'.calls| == |s.rings| && Empty(s'.pool.workers)
    ensures RingsInv(s')
  {
    forall v | 0 <= v < |s'.rings| ensures RingOk(s', v) {
      assert RingOk(s, v);
    }
  }

  ghost predicate StillFits(s: State, v: Id, w: Id) {
    0 <= v < |s.rings| && RingsInv(s) && w in s.rings[v].consumers && ConsumerFits(s, v, w)
  }

  lemma ConsumerMovesFits(s: State, v: Id, w: Id, e: R.Event)
    requires Inv(s) && 0 <= v < |s.rings| && 0 <= w < |s.rings| && R.Enabled(s.rings[v], e)
    requires (R.PopEvent(e) || R.GrabEvent(e)) && e.c == w
    requires StillFits(OnRing(s, v, e), v, w)
    ensures FitsInv(OnRing(s, v, e))
  {
    var s' := OnRing(s, v, e);
    OthersUnmoved(s.rings[v], e);
    assert ProducerFits(s, w);
    assert ProducerFits(s', w);
    forall u | 0 <= u < |s.rings| && w in s'.rings[u].consumers ensures ConsumerFits(s', u, w) {
      assert u != v ==> ConsumerFits(s, u, w);
    }
    FitsStep(s, s', v, w);
  }

  /** A consumer that starts a call or goes on with it. */
  lemma ConsumerMoves(s: State, v: Id, w: Id, e: R.Event)
    requires 0 <= v < |s.rings| && 0 <= w < |s.rings| && R.Enabled(s.rings[v], e)
    requires (R.PopEvent(e) || R.GrabEvent(e)) && e.c == w && R.EffectOf(s.rings[v], e).Nothing?
    requires StillFits(OnRing(s, v, e), v, w)
    requires Inv(s)
    ensures Inv(OnRing(s, v, e)) && Abs(OnRing(s, v, e)) == Abs(s)
  {
    ConsumerMovesFits(s, v, w, e);
    UnseenInv(s, v, e);
  }

  lemma UnseenInv(s: State, v: Id, e: R.Event)
    requires Inv(s) && 0 <= v < |s.rings| && R.Enabled(s.rings[v], e) && R.EffectOf(s.rings[v], e).Nothing?
    requires RingsInv(OnRing(s, v, e)) && FitsInv(OnRing(s, v, e))
    ensures Inv(OnRing(s, v, e)) && Abs(OnRing(s, v, e)) == Abs(s)
  {
    UnseenStep(s, v, e);
  }

  lemma OthersUnmoved(ring: R.State, e: R.Event)
    requires R.Enabled(ring, e) && (R.PopEvent(e) || R.GrabEvent(e))
    ensures R.Perform(ring, e).producer == ring.producer
    ensures forall c :: c != e.c && c in ring.consumers ==>
              c in R.Perform(ring, e).consumers && R.Perform(ring, e).consumers[c] == ring.consumers[c]
  {
  }

  lemma CallTryPopStep(s: State, w: Id)
    requires Inv(s) && Enabled(s, CallTryPop(w))
    ensures Inv(Perform(s, CallTryPop(w))) && Abs(Perform(s, CallTryPop(w))) == Abs(s)
  {
    RingStep(s, w, R.CallTryPop(w));
    ConsumerMoves(s, w, w, R.CallTryPop(w));
  }

  lemma CallLowSizeStep(s: State, w: Id)
    requires Inv(s) && Enabled(s, CallLowSize(w))
    ensures Inv(Perform(s, CallLowSize(w))) && Abs(Perform(s, CallLowSize(w))) == Abs(s)
  {
    var v := PcAt(s, w).victim;
    RingStep(s, v, R.CallLowSize(w));
    ConsumerMoves(s, v, w, R.CallLowSize(w));
  }

  lemma CallGrabStep(s: State, w: Id)
    requires Inv(s) && Enabled(s, CallGrab(w))
    ensures Inv(Perform(s, CallGrab(w))) && Abs(Perform(s, CallGrab(w))) == Abs(s)
  {
    var v, e := PcAt(s, w).victim, R.CallGrab(w, PcAt(s, w).limit);
    RingStep(s, v, e);
    ConsumerMoves(s, v, w, e);
  }

  /** A producer that starts a call or goes on with it. */
  lemma ProducerMoves(s: State, w: Id, e: R.Event, call: Call)
    requires Inv(s) && 0 <= w < |s.rings| && R.Enabled(s.rings[w], e) && !R.PopEvent(e) && !R.GrabEvent(e)
    requires R.EffectOf(s.rings[w], e).Nothing?
    requires RingsInv(OnRing(s, w, e)) && ProducerFits(OnRing(s, w, e).(calls := s.calls[w := call]), w)
    ensures var s' := OnRing(s, w, e).(calls := s.calls[w := call]); Inv(s') && Abs(s') == Abs(s)
  {
    var t := OnRing(s, w, e);
    var s' := t.(calls := s.calls[w := call]);
    UnseenStep(s, w, e);
    RingsSame(t, s');
    ConsumersUnmoved(s.rings[w], e);
    forall u | 0 <= u < |s.rings| && w in s'.rings[u].consumers ensures ConsumerFits(s', u, w) {
      assert RingOk(s, u) && ConsumerFits(s, u, w);
    }
    FitsStep(s, s', w, w);
  }

  lemma ConsumersUnmoved(ring: R.State, e: R.Event)
    requires R.Enabled(ring, e) && !R.PopEvent(e) && !R.GrabEvent(e)
    ensures R.Perform(ring, e).consumers == ring.consumers
  {
  }

  lemma CallTryPushStep(s: State, w: Id, task: P.Task, hint: P.Hint)
    requires Inv(s) && Enabled(s, CallTryPush(w, task, hint))
    ensures var e := CallTryPush(w, task, hint); Inv(Perform(s, e)) && Abs(Perform(s, e)) == Abs(s)
  {
    var e := R.CallTryPush(PushedItem(s, w, task, hint));
    RingStep(s, w, e);
    ProducerMoves(s, w, e, Pushing(task, hint));
  }

  lemma CallPushManyStep(s: State, w: Id)
    requires Inv(s) && Enabled(s, CallPushMany(w))
    ensures Inv(Perform(s, CallPushMany(w))) && Abs(Perform(s, CallPushMany(w))) == Abs(s)
  {
    var e := R.CallPushMany(PcAt(s, w).buffer[1..]);
    RingStep(s, w, e);
    assert ProducerFits(s, w);
    assert s.calls[w := NoCall] == s.calls;
    ProducerMoves(s, w, e, NoCall);
  }

  // ----- accesses in the middle of a call: nothing is seen of them either

  /** The access ends the worker's call. */
  ghost predicate Ends(s: State, v: Id, e: R.Event)
    requires 0 <= v < |s.rings| && R.Enabled(s.rings[v], e)
  {
    var ring := s.rings[v];
    match e
    case PopLoadEnd(c) => ring.end == ring.consumers[c].begin
    case PopExchange(c, spurious) => ring.consumers[c].begin == ring.begin && !spurious
    case SizeLoadBegin(_) => true
    case GrabLoadEnd(c) => ring.end <= ring.consumers[c].begin
    case GrabExchange(c) => ring.consumers[c].begin == ring.begin
    case Publish => true
    case PublishMany => true
    case _ => false
  }

  ghost predicate IsConsumer(e: R.Event) {
    R.PopEvent(e) || R.GrabEvent(e)
  }

  lemma MiddleIsUnseen(s: State, v: Id, e: R.Event)
    requires 0 <= v < |s.rings| && R.Enabled(s.rings[v], e) && !Ends(s, v, e)
    ensures R.EffectOf(s.rings[v], e).Nothing? && Finished(s, v, e) == s
  {
  }

  lemma MiddleConsumer(s: State, v: Id, e: R.Event)
    requires Inv(s) && Enabled(s, Access(v, e)) && !Ends(s, v, e) && IsConsumer(e)
    ensures Inv(OnRing(s, v, e)) && Abs(OnRing(s, v, e)) == Abs(s)
  {
    MiddleIsUnseen(s, v, e);
    MiddleArrives(s, v, e);
    ConsumerMoves(s, v, e.c, e);
  }

  lemma MiddleArrives(s: State, v: Id, e: R.Event)
    requires Inv(s) && Enabled(s, Access(v, e)) && !Ends(s, v, e) && IsConsumer(e)
    ensures 0 <= e.c < |s.rings| && RingsInv(OnRing(s, v, e)) && e.c in OnRing(s, v, e).rings[v].consumers
    ensures ConsumerFits(OnRing(s, v, e), v, e.c)
  {
    RingStep(s, v, e);
    assert RingOk(s, v) && ConsumerFits(s, v, e.c);
    MiddleFits(s, v, e);
  }

  lemma MiddleFits(s: State, v: Id, e: R.Event)
    requires 0 <= v < |s.rings| && R.Enabled(s.rings[v], e) && !IsCall(e) && !Ends(s, v, e) && IsConsumer(e)
    requires e.c in s.rings[v].consumers && ConsumerFits(s, v, e.c)
    ensures e.c in OnRing(s, v, e).rings[v].consumers && ConsumerFits(OnRing(s, v, e), v, e.c)
  {
  }

  /** The room that PushMany asserts: the worker has seen its ring empty and pushed nothing since. */
  lemma RoomForMany(s: State, v: Id)
    requires Inv(s) && 0 <= v < |s.rings| && PcAt(s, v).Fill?
    ensures s.rings[v].end + |PcAt(s, v).buffer| <= s.rings[v].begin + s.rings[v].capacity
  {
    assert RingOk(s, v);
    assert P.WorkerOk(Abs(s).workers[v]);
  }

  lemma MiddleProducerFits(s: State, v: Id, e: R.Event)
    requires RingsInv(s) && 0 <= v < |s.rings| && R.Enabled(s.rings[v], e) && !IsCall(e) && !Ends(s, v, e)
    requires !IsConsumer(e) && Admitted(s, v, e) && ProducerFits(s, v)
    requires e.CheckRoom? ==> R.HasRoom(s.rings[v], s.rings[v].producer.end, s.rings[v].producer.items)
    ensures ProducerFits(OnRing(s, v, e), v)
  {
  }

  lemma MiddleProducer(s: State, v: Id, e: R.Event)
    requires Inv(s) && Enabled(s, Access(v, e)) && !Ends(s, v, e) && !IsConsumer(e)
    ensures Inv(OnRing(s, v, e)) && Abs(OnRing(s, v, e)) == Abs(s)
  {
    MiddleIsUnseen(s, v, e);
    RingStep(s, v, e);
    assert RingOk(s, v) && ProducerFits(s, v);
    if e.CheckRoom? {
      RoomForMany(s, v);
    }
    MiddleProducerFits(s, v, e);
    assert OnRing(s, v, e).(calls := s.calls[v := s.calls[v]]) == OnRing(s, v, e);
    ProducerMoves(s, v, e, s.calls[v]);
  }

  // ----- the ends of calls: each is one step of the pool

  /** A worker moves on, and a ring with it. */
  lemma WithBoth(pool: P.State, rings: seq<R.State>, w: Id, r: P.WorkerState, v: Id, ring: R.State)
    requires |rings| == |pool.workers| && Windows(rings) && R.Windowed(ring)
    requires 0 <= w < |pool.workers| && 0 <= v < |pool.workers|
    ensures Windows(rings[v := ring])
    ensures With(P.Put(pool, w, r), rings[v := ring]).workers
            == With(pool, rings).workers[v := pool.workers[v].(local := R.Contents(ring))]
                                [w := r.(local := R.Contents(rings[v := ring][w]))]
  {
    FilledRing(pool.workers, rings, v, ring);
    FilledPut(pool.workers, rings[v := ring], w, r);
  }

  /** What the pool sees of a pop. */
  lemma SeenPop(pool: P.State, rings: seq<R.State>, w: Id, ring: R.State, item: Option<P.Task>)
    requires |rings| == |pool.workers| && Windows(rings) && R.Windowed(ring) && 0 <= w < |pool.workers|
    requires pool.workers[w].pc.PopLocal?
    requires item.None? ==> R.Contents(rings[w]) == [] && R.Contents(ring) == []
    requires item.Some? ==> R.Contents(rings[w]) == [item.value] + R.Contents(ring)
    ensures Windows(rings[w := ring]) && P.Enabled(With(pool, rings), P.TryPop(w))
    ensures P.Perform(With(pool, rings), P.TryPop(w))
            == With(P.Go(pool, w, if item.None? then P.FirstGrab else P.Run(item.value)), rings[w := ring])
  {
    var pc := if item.None? then P.FirstGrab else P.Run(item.value);
    WithBoth(pool, rings, w, pool.workers[w].(pc := pc), w, ring);
    assert item.Some? ==> R.Contents(rings[w])[1..] == R.Contents(ring);
  }

  lemma SeenSize(pool: P.State, rings: seq<R.State>, w: Id, v: Id, ring: R.State, size: nat)
    requires |rings| == |pool.workers| && Windows(rings) && R.Windowed(ring)
    requires 0 <= w < |pool.workers| && 0 <= v < |pool.workers|
    requires pool.workers[w].pc.Measure? && pool.workers[w].pc.victim == v
    requires size <= |R.Contents(rings[v])| && R.Contents(ring) == R.Contents(rings[v])
    ensures Windows(rings[v := ring]) && P.Enabled(With(pool, rings), P.LowSize(w, size))
    ensures P.Perform(With(pool, rings), P.LowSize(w, size))
            == With(P.Go(pool, w, P.DoLowSize(pool.workers[w].pc, size)), rings[v := ring])
  {
    WithBoth(pool, rings, w, pool.workers[w].(pc := P.DoLowSize(pool.workers[w].pc, size)), v, ring);
  }

  ghost predicate Steals(pool: P.State, w: Id, v: Id) {
    && 0 <= w < |pool.workers| && 0 <= v < |pool.workers| && v != w
    && pool.workers[w].pc.Take? && pool.workers[w].pc.victim == v
  }

  lemma SeenNoLoot(pool: P.State, rings: seq<R.State>, w: Id, v: Id, ring: R.State)
    requires |rings| == |pool.workers| && Windows(rings) && R.Windowed(ring) && Steals(pool, w, v)
    requires R.Contents(ring) == R.Contents(rings[v])
    requires pool.workers[w].pc.limit == 0 || R.Contents(rings[v]) == []
    ensures Windows(rings[v := ring]) && P.Enabled(With(pool, rings), P.GrabFromVictim(w, 0))
    ensures P.Perform(With(pool, rings), P.GrabFromVictim(w, 0))
            == With(P.Go(pool, w, P.Steal(pool.workers[w].pc.tries + 1)), rings[v := ring])
  {
    WithBoth(pool, rings, w, pool.workers[w].(pc := P.Steal(pool.workers[w].pc.tries + 1)), v, ring);
  }

  lemma SeenLoot(pool: P.State, rings: seq<R.State>, w: Id, v: Id, ring: R.State, buffer: seq<P.Task>)
    requires |rings| == |pool.workers| && Windows(rings) && R.Windowed(ring) && Steals(pool, w, v)
    requires R.Contents(rings[v]) == buffer + R.Contents(ring) && 0 < |buffer| <= pool.workers[w].pc.limit
    ensures Windows(rings[v := ring]) && P.Enabled(With(pool, rings), P.GrabFromVictim(w, |buffer|))
    ensures P.Perform(With(pool, rings), P.GrabFromVictim(w, |buffer|))
            == With(P.Go(pool, w, P.Fill(buffer)), rings[v := ring])
  {
    var q := R.Contents(rings[v]);
    assert q[..|buffer|] == buffer && q[|buffer|..] == R.Contents(ring);
    WithBoth(pool, rings, w, pool.workers[w].(pc := P.Fill(buffer)), v, ring);
  }

  ghost function After(pc: P.Pc, buffer: seq<P.Task>): P.Pc
    requires pc.Take?
  {
    if buffer == [] then P.Steal(pc.tries + 1) else P.Fill(buffer)
  }

  lemma SeenGrab(pool: P.State, rings: seq<R.State>, w: Id, v: Id, ring: R.State, buffer: seq<P.Task>)
    requires |rings| == |pool.workers| && Windows(rings) && R.Windowed(ring) && Steals(pool, w, v)
    requires R.Contents(rings[v]) == buffer + R.Contents(ring) && |buffer| <= pool.workers[w].pc.limit
    requires buffer == [] ==> pool.workers[w].pc.limit == 0
    ensures Windows(rings[v := ring]) && P.Enabled(With(pool, rings), P.GrabFromVictim(w, |buffer|))
    ensures P.Perform(With(pool, rings), P.GrabFromVictim(w, |buffer|))
            == With(P.Go(pool, w, After(pool.workers[w].pc, buffer)), rings[v := ring])
  {
    if buffer == [] {
      SeenNoLoot(pool, rings, w, v, ring);
    } else {
      SeenLoot(pool, rings, w, v, ring, buffer);
    }
  }

  lemma SeenMany(pool: P.State, rings: seq<R.State>, w: Id, ring: R.State)
    requires |rings| == |pool.workers| && Windows(rings) && R.Windowed(ring) && 0 <= w < |pool.workers|
    requires pool.workers[w].pc.Fill? && pool.workers[w].pc.buffer != []
    requires R.Contents(ring) == R.Contents(rings[w]) + pool.workers[w].pc.buffer[1..]
    ensures Windows(rings[w := ring]) && P.Enabled(With(pool, rings), P.PushMany(w))
    ensures P.Perform(With(pool, rings), P.PushMany(w))
            == With(P.Go(pool, w, P.Run(pool.workers[w].pc.buffer[0])), rings[w := ring])
  {
    WithBoth(pool, rings, w, pool.workers[w].(pc := P.Run(pool.workers[w].pc.buffer[0])), w, ring);
  }

  /** The pool after a running task of worker w has handed in another. */
  ghost function WithTask(pool: P.State, w: Id, task: P.Task, hint: P.Hint): P.State
    requires 0 <= w < |pool.workers| && pool.workers[w].pc.Run? && pool.workers[w].pc.task in pool.root
  {
    var r := pool.workers[w];
    P.Put(pool, w, if hint == P.Next then r.(lifo := Some(task)) else r).(root := pool.root[task := pool.root[r.pc.task]])
  }

  lemma SeenPush(pool: P.State, rings: seq<R.State>, w: Id, ring: R.State, task: P.Task, hint: P.Hint, item: P.Task)
    requires |rings| == |pool.workers| && Windows(rings) && R.Windowed(ring) && 0 <= w < |pool.workers|
    requires pool.workers[w].pc.Run? && pool.workers[w].pc.task in pool.root && task !in pool.root
    requires Pushes(pool.workers[w], task, hint, item)
    requires R.Contents(ring) == R.Contents(rings[w]) + [item] && |R.Contents(rings[w])| < P.LOCAL_CAPACITY
    ensures Windows(rings[w := ring]) && P.Enabled(With(pool, rings), P.Spawn(w, task, hint))
    ensures P.Perform(With(pool, rings), P.Spawn(w, task, hint)) == With(WithTask(pool, w, task, hint), rings[w := ring])
  {
    var r := pool.workers[w];
    WithBoth(pool, rings, w, if hint == P.Next then r.(lifo := Some(task)) else r, w, ring);
  }

  /** A worker whose call on ring v is over. */
  lemma DoneIdles(s: State, v: Id, e: R.Event)
    requires RingsInv(s) && FitsInv(s) && 0 <= v < |s.rings| && R.Enabled(s.rings[v], e) && IsConsumer(e)
    requires e.c in s.rings[v].consumers && !s.rings[v].consumers[e.c].Idle?
    requires R.Perform(s.rings[v], e).consumers[e.c] == R.Idle
    ensures 0 <= e.c < |s.rings| && s.rings[e.c].producer.Quiet? && s.calls[e.c] == NoCall
    ensures forall u :: 0 <= u < |s.rings| && e.c in OnRing(s, v, e).rings[u].consumers ==>
              OnRing(s, v, e).rings[u].consumers[e.c].Idle?
  {
    var w := e.c;
    assert RingOk(s, v) && ConsumerFits(s, v, w);
    assert ProducerFits(s, w);
    forall u | 0 <= u < |s.rings| && w in OnRing(s, v, e).rings[u].consumers
      ensures OnRing(s, v, e).rings[u].consumers[w].Idle?
    {
      if u != v {
        OnOneRing(s, v, u, w);
      }
    }
  }

  lemma GoLocals(s: State, w: Id, pc: P.Pc)
    requires RingsInv(s) && 0 <= w < |s.rings|
    ensures RingsInv(Go(s, w, pc))
  {
    RingsSame(s, Go(s, w, pc));
  }

  lemma DoneRings(s: State, v: Id, e: R.Event, pc: P.Pc)
    requires RingsInv(s) && 0 <= v < |s.rings| && R.Enabled(s.rings[v], e) && IsConsumer(e) && 0 <= e.c < |s.rings|
    ensures RingsInv(OnRing(Go(s, e.c, pc), v, e)) && Shaped(OnRing(Go(s, e.c, pc), v, e))
  {
    GoLocals(s, e.c, pc);
    RingStep(Go(s, e.c, pc), v, e);
    RingsWindowed(OnRing(Go(s, e.c, pc), v, e));
  }

  /** It goes on to any point at which it is in no call. */
  lemma ConsumerDone(s: State, v: Id, e: R.Event, pc: P.Pc)
    requires RingsInv(s) && FitsInv(s) && 0 <= v < |s.rings| && R.Enabled(s.rings[v], e) && IsConsumer(e)
    requires e.c in s.rings[v].consumers && !s.rings[v].consumers[e.c].Idle?
    requires R.Perform(s.rings[v], e).consumers[e.c] == R.Idle
    ensures 0 <= e.c < |s.rings|
    ensures var s' := OnRing(Go(s, e.c, pc), v, e); RingsInv(s') && FitsInv(s') && Shaped(s')
  {
    DoneIdles(s, v, e);
    DoneRings(s, v, e, pc);
    OthersUnmoved(s.rings[v], e);
    FitsStep(s, OnRing(Go(s, e.c, pc), v, e), v, e.c);
  }

  /** What is seen of a worker that moves on, and a ring with it. */
  lemma AbsAfter(s: State, w: Id, pc: P.Pc, v: Id, e: R.Event)
    requires RingsInv(s) && 0 <= v < |s.rings| && 0 <= w < |s.rings| && R.Enabled(s.rings[v], e)
    requires Shaped(OnRing(Go(s, w, pc), v, e))
    ensures Windows(s.rings[v := R.Perform(s.rings[v], e)])
    ensures Abs(OnRing(Go(s, w, pc), v, e)) == With(P.Go(s.pool, w, pc), s.rings[v := R.Perform(s.rings[v], e)])
  {
  }

  lemma PopNothing(s: State, v: Id, c: Id)
    requires Inv(s) && Enabled(s, Access(v, R.PopLoadEnd(c))) && Ends(s, v, R.PopLoadEnd(c))
    ensures var s' := Perform(s, Access(v, R.PopLoadEnd(c)));
            RingsInv(s') && FitsInv(s') && Shaped(s') && P.Step(Abs(s), P.TryPop(c), Abs(s'))
  {
    var e := R.PopLoadEnd(c);
    assert RingOk(s, v) && ConsumerFits(s, v, c);
    RingStep(s, v, e);
    ConsumerDone(s, v, e, P.FirstGrab);
    R.GivingUpSawEmpty(s.rings[v], c);
    SeenPop(s.pool, s.rings, c, R.Perform(s.rings[v], e), None);
  }

  lemma PopSomething(s: State, v: Id, c: Id, spurious: bool)
    requires Inv(s) && Enabled(s, Access(v, R.PopExchange(c, spurious))) && Ends(s, v, R.PopExchange(c, spurious))
    ensures var s' := Perform(s, Access(v, R.PopExchange(c, spurious)));
            RingsInv(s') && FitsInv(s') && Shaped(s') && P.Step(Abs(s), P.TryPop(c), Abs(s'))
  {
    var e := R.PopExchange(c, spurious);
    var item := s.rings[v].consumers[c].item;
    assert RingOk(s, v) && ConsumerFits(s, v, c);
    RingStep(s, v, e);
    ConsumerDone(s, v, e, P.Run(item));
    SeenPop(s.pool, s.rings, c, R.Perform(s.rings[v], e), Some(item));
  }

  lemma SizeEnds(s: State, v: Id, c: Id, size: nat)
    requires Enabled(s, Access(v, R.SizeLoadBegin(c))) && PcAt(s, c).Measure?
    requires size == R.SizeSeen(s.rings[v], c)
    ensures Perform(s, Access(v, R.SizeLoadBegin(c)))
            == OnRing(Go(s, c, P.DoLowSize(PcAt(s, c), size)), v, R.SizeLoadBegin(c))
  {
  }

  lemma SizeSeen(s: State, v: Id, c: Id, size: nat)
    requires Inv(s) && Enabled(s, Access(v, R.SizeLoadBegin(c)))
    requires size == R.SizeSeen(s.rings[v], c)
    ensures PcAt(s, c).Measure? && PcAt(s, c).victim == v && 0 <= c < |s.rings|
    ensures var ring' := R.Perform(s.rings[v], R.SizeLoadBegin(c));
            && R.Windowed(ring') && Windows(s.rings[v := ring']) && P.Enabled(Abs(s), P.LowSize(c, size))
            && P.Perform(Abs(s), P.LowSize(c, size))
               == With(P.Go(s.pool, c, P.DoLowSize(PcAt(s, c), size)), s.rings[v := ring'])
  {
    assert RingOk(s, v) && ConsumerFits(s, v, c);
    RingStep(s, v, R.SizeLoadBegin(c));
    R.LowSizeIsLow(s.rings[v], c);
    SeenSize(s.pool, s.rings, c, v, R.Perform(s.rings[v], R.SizeLoadBegin(c)), size);
  }

  lemma SizeRead(s: State, v: Id, c: Id) returns (size: nat)
    requires Inv(s) && Enabled(s, Access(v, R.SizeLoadBegin(c)))
    ensures var s' := Perform(s, Access(v, R.SizeLoadBegin(c)));
            RingsInv(s') && FitsInv(s') && Shaped(s') && P.Step(Abs(s), P.LowSize(c, size), Abs(s'))
  {
    var ring := s.rings[v];
    size := R.SizeSeen(ring, c);
    SizeSeen(s, v, c, size);
    SizeEnds(s, v, c, size);
    ConsumerDone(s, v, R.SizeLoadBegin(c), P.DoLowSize(PcAt(s, c), size));
  }

  /** A thief's victim is another worker. */
  lemma ThiefSteals(s: State, v: Id, c: Id)
    requires Inv(s) && 0 <= v < |s.rings| && PcAt(s, c).Take? && PcAt(s, c).victim == v
    ensures Steals(s.pool, c, v)
  {
    assert Abs(s).workers[c].pc == PcAt(s, c);
  }

  lemma GrabEnds(s: State, v: Id, e: R.Event, buffer: seq<P.Task>)
    requires Enabled(s, Access(v, e)) && Ends(s, v, e) && (e.GrabLoadEnd? || e.GrabExchange?) && PcAt(s, e.c).Take?
    requires buffer == (if e.GrabLoadEnd? then [] else s.rings[v].consumers[e.c].buffer)
    ensures Perform(s, Access(v, e)) == OnRing(Go(s, e.c, After(PcAt(s, e.c), buffer)), v, e)
  {
  }

  /** A grab that has come to its end, seen as the pool sees it. */
  lemma GrabDone(s: State, v: Id, e: R.Event, buffer: seq<P.Task>)
    requires Inv(s) && Enabled(s, Access(v, e)) && Ends(s, v, e) && (e.GrabLoadEnd? || e.GrabExchange?)
    requires e.c in s.rings[v].consumers && !s.rings[v].consumers[e.c].Idle? && PcAt(s, e.c).Take?
    requires R.Perform(s.rings[v], e).consumers[e.c] == R.Idle
    requires buffer == (if e.GrabLoadEnd? then [] else s.rings[v].consumers[e.c].buffer)
    ensures var s' := Perform(s, Access(v, e)); var rings' := s.rings[v := R.Perform(s.rings[v], e)];
            RingsInv(s') && FitsInv(s') && Shaped(s') && 0 <= e.c < |s.rings| && Windows(rings')
            && Abs(s') == With(P.Go(s.pool, e.c, After(PcAt(s, e.c), buffer)), rings')
  {
    GrabEnds(s, v, e, buffer);
    ConsumerDone(s, v, e, After(PcAt(s, e.c), buffer));
    AbsAfter(s, e.c, After(PcAt(s, e.c), buffer), v, e);
  }

  lemma NoLoot(s: State, v: Id, c: Id, ring: R.State)
    requires Shaped(s) && Steals(s.pool, c, v) && R.Windowed(ring)
    requires R.Contents(s.rings[v]) == [] && R.Contents(ring) == []
    ensures Windows(s.rings[v := ring]) && P.Enabled(Abs(s), P.GrabFromVictim(c, 0))
    ensures P.Perform(Abs(s), P.GrabFromVictim(c, 0)) == With(P.Go(s.pool, c, After(PcAt(s, c), [])), s.rings[v := ring])
  {
    SeenNoLoot(s.pool, s.rings, c, v, ring);
  }

  lemma NothingSeen(s: State, v: Id, c: Id)
    requires Inv(s) && Enabled(s, Access(v, R.GrabLoadEnd(c))) && Ends(s, v, R.GrabLoadEnd(c))
    ensures Steals(s.pool, c, v)
    ensures var ring' := R.Perform(s.rings[v], R.GrabLoadEnd(c));
            && R.Windowed(ring') && Windows(s.rings[v := ring']) && P.Enabled(Abs(s), P.GrabFromVictim(c, 0))
            && P.Perform(Abs(s), P.GrabFromVictim(c, 0))
               == With(P.Go(s.pool, c, After(PcAt(s, c), [])), s.rings[v := ring'])
  {
    GrabSawNothing(s, v, c);
    NoLoot(s, v, c, R.Perform(s.rings[v], R.GrabLoadEnd(c)));
  }

  lemma GrabNothing(s: State, v: Id, c: Id)
    requires Inv(s) && Enabled(s, Access(v, R.GrabLoadEnd(c))) && Ends(s, v, R.GrabLoadEnd(c))
    ensures var s' := Perform(s, Access(v, R.GrabLoadEnd(c)));
            RingsInv(s') && FitsInv(s') && Shaped(s') && P.Step(Abs(s), P.GrabFromVictim(c, 0), Abs(s'))
  {
    NothingSeen(s, v, c);
    GrabDone(s, v, R.GrabLoadEnd(c), []);
  }

  lemma GrabSawNothing(s: State, v: Id, c: Id)
    requires Inv(s) && Enabled(s, Access(v, R.GrabLoadEnd(c))) && Ends(s, v, R.GrabLoadEnd(c))
    ensures Steals(s.pool, c, v)
    ensures var ring' := R.Perform(s.rings[v], R.GrabLoadEnd(c));
            R.Windowed(s.rings[v]) && R.Windowed(ring') && R.Contents(s.rings[v]) == [] && R.Contents(ring') == []
  {
    assert RingOk(s, v) && ConsumerFits(s, v, c);
    RingStep(s, v, R.GrabLoadEnd(c));
    R.GivingUpSawEmpty(s.rings[v], c);
    ThiefSteals(s, v, c);
  }

  lemma GrabTook(s: State, v: Id, c: Id)
    requires Inv(s) && Enabled(s, Access(v, R.GrabExchange(c))) && Ends(s, v, R.GrabExchange(c))
    ensures Steals(s.pool, c, v) && c in s.rings[v].consumers && s.rings[v].consumers[c].GrabRead?
    ensures var ring' := R.Perform(s.rings[v], R.GrabExchange(c)); var buffer := s.rings[v].consumers[c].buffer;
            && R.Windowed(s.rings[v]) && R.Windowed(ring') && R.Contents(s.rings[v]) == buffer + R.Contents(ring')
            && |buffer| <= PcAt(s, c).limit && (buffer == [] ==> PcAt(s, c).limit == 0)
  {
    assert RingOk(s, v) && ConsumerFits(s, v, c) && R.ConsumerOk(s.rings[v], s.rings[v].consumers[c]);
    RingStep(s, v, R.GrabExchange(c));
    ThiefSteals(s, v, c);
  }

  lemma LootSeen(s: State, v: Id, c: Id, buffer: seq<P.Task>)
    requires Inv(s) && Enabled(s, Access(v, R.GrabExchange(c))) && Ends(s, v, R.GrabExchange(c))
    requires buffer == s.rings[v].consumers[c].buffer
    ensures Steals(s.pool, c, v)
    ensures var ring' := R.Perform(s.rings[v], R.GrabExchange(c));
            && R.Windowed(ring') && Windows(s.rings[v := ring']) && P.Enabled(Abs(s), P.GrabFromVictim(c, |buffer|))
            && P.Perform(Abs(s), P.GrabFromVictim(c, |buffer|))
               == With(P.Go(s.pool, c, After(PcAt(s, c), buffer)), s.rings[v := ring'])
  {
    GrabTook(s, v, c);
    SeenGrab(s.pool, s.rings, c, v, R.Perform(s.rings[v], R.GrabExchange(c)), buffer);
  }

  lemma GrabSomething(s: State, v: Id, c: Id)
    requires Inv(s) && Enabled(s, Access(v, R.GrabExchange(c))) && Ends(s, v, R.GrabExchange(c))
    ensures c in s.rings[v].consumers && s.rings[v].consumers[c].GrabRead?
    ensures var s' := Perform(s, Access(v, R.GrabExchange(c))); var taken := |s.rings[v].consumers[c].buffer|;
            RingsInv(s') && FitsInv(s') && Shaped(s') && P.Step(Abs(s), P.GrabFromVictim(c, taken), Abs(s'))
  {
    var buffer := s.rings[v].consumers[c].buffer;
    LootSeen(s, v, c, buffer);
    GrabDone(s, v, R.GrabExchange(c), buffer);
  }

  /** A worker whose push is over. */
  lemma ProducerDone(s: State, v: Id, e: R.Event, pool: P.State)
    requires RingsInv(s) && FitsInv(s) && 0 <= v < |s.rings| && R.Enabled(s.rings[v], e) && (e.Publish? || e.PublishMany?)
    requires |pool.workers| == |s.pool.workers| && Empty(pool.workers)
    requires forall w :: 0 <= w < |pool.workers| && w != v ==> pool.workers[w] == s.pool.workers[w]
    requires forall t :: t in s.pool.root ==> t in pool.root
    ensures var s' := OnRing(s, v, e).(pool := pool, calls := s.calls[v := NoCall]);
            RingsInv(s') && FitsInv(s') && Shaped(s')
  {
    var t := OnRing(s, v, e);
    var s' := t.(pool := pool, calls := s.calls[v := NoCall]);
    RingStep(s, v, e);
    RingsSame(t, s');
    RingsWindowed(s');
    ConsumersUnmoved(s.rings[v], e);
    assert ProducerFits(s, v);
    forall u | 0 <= u < |s.rings| && v in s'.rings[u].consumers ensures ConsumerFits(s', u, v) {
      assert ConsumerFits(s, u, v);
    }
    FitsStep(s, s', v, v);
  }

  lemma PushEnds(s: State, v: Id)
    requires Enabled(s, Access(v, R.Publish)) && 0 <= v < |s.pool.workers| && s.calls[v].Pushing?
    requires PcAt(s, v).Run? && PcAt(s, v).task in s.pool.root
    ensures Perform(s, Access(v, R.Publish))
            == OnRing(s, v, R.Publish).(pool := WithTask(s.pool, v, s.calls[v].task, s.calls[v].hint),
                                        calls := s.calls[v := NoCall])
  {
  }

  lemma PushSeen(s: State, v: Id)
    requires Inv(s) && Enabled(s, Access(v, R.Publish))
    ensures s.calls[v].Pushing? && PcAt(s, v).Run? && PcAt(s, v).task in s.pool.root
    ensures var ring' := R.Perform(s.rings[v], R.Publish); var call := s.calls[v];
            && R.Windowed(ring') && Windows(s.rings[v := ring'])
            && P.Enabled(Abs(s), P.Spawn(v, call.task, call.hint))
            && P.Perform(Abs(s), P.Spawn(v, call.task, call.hint))
               == With(WithTask(s.pool, v, call.task, call.hint), s.rings[v := ring'])
  {
    var ring, call := s.rings[v], s.calls[v];
    assert RingOk(s, v) && ProducerFits(s, v);
    RingStep(s, v, R.Publish);
    SeenPush(s.pool, s.rings, v, R.Perform(ring, R.Publish), call.task, call.hint, ring.producer.item);
  }

  lemma PushPublished(s: State, v: Id)
    requires Inv(s) && Enabled(s, Access(v, R.Publish))
    ensures s.calls[v].Pushing?
    ensures var s' := Perform(s, Access(v, R.Publish));
            RingsInv(s') && FitsInv(s') && Shaped(s')
            && P.Step(Abs(s), P.Spawn(v, s.calls[v].task, s.calls[v].hint), Abs(s'))
  {
    PushSeen(s, v);
    PushEnds(s, v);
    ProducerDone(s, v, R.Publish, WithTask(s.pool, v, s.calls[v].task, s.calls[v].hint));
  }

  lemma ManyPublished(s: State, v: Id)
    requires Inv(s) && Enabled(s, Access(v, R.PublishMany))
    ensures var s' := Perform(s, Access(v, R.PublishMany));
            RingsInv(s') && FitsInv(s') && Shaped(s') && P.Step(Abs(s), P.PushMany(v), Abs(s'))
  {
    assert RingOk(s, v) && ProducerFits(s, v);
    RingStep(s, v, R.PublishMany);
    ProducerDone(s, v, R.PublishMany, P.Go(s.pool, v, P.Run(PcAt(s, v).buffer[0])));
    assert s.calls[v := NoCall] == s.calls;
    SeenMany(s.pool, s.rings, v, R.Perform(s.rings[v], R.PublishMany));
  }

  // ----- every step is a step of the pool or none

  /** The step of the pool that an event is, if any. */
  ghost predicate Below(s: State, e: P.Event, s': State) {
    Shaped(s) && Shaped(s') && P.Step(Abs(s), e, Abs(s'))
  }

  ghost predicate Simulated(s: State, s': State) {
    Shaped(s) && Shaped(s') && (Abs(s') == Abs(s) || exists e :: Below(s, e, s'))
  }

  lemma EndsSimulated(s: State, v: Id, e: R.Event)
    requires Inv(s) && Enabled(s, Access(v, e)) && Ends(s, v, e)
    ensures var s' := Perform(s, Access(v, e)); RingsInv(s') && FitsInv(s') && exists pe :: Below(s, pe, s')
  {
    var s' := Perform(s, Access(v, e));
    match e
    case PopLoadEnd(c) =>
      PopNothing(s, v, c);
      assert Below(s, P.TryPop(c), s');
    case PopExchange(c, spurious) =>
      PopSomething(s, v, c, spurious);
      assert Below(s, P.TryPop(c), s');
    case SizeLoadBegin(c) =>
      var size := SizeRead(s, v, c);
      assert Below(s, P.LowSize(c, size), s');
    case GrabLoadEnd(c) =>
      GrabNothing(s, v, c);
      assert Below(s, P.GrabFromVictim(c, 0), s');
    case GrabExchange(c) =>
      GrabSomething(s, v, c);
      assert Below(s, P.GrabFromVictim(c, |s.rings[v].consumers[c].buffer|), s');
    case Publish =>
      PushPublished(s, v);
      assert Below(s, P.Spawn(v, s.calls[v].task, s.calls[v].hint), s');
    case PublishMany =>
      ManyPublished(s, v);
      assert Below(s, P.PushMany(v), s');
  }

  lemma AccessStep(s: State, v: Id, e: R.Event)
    requires Inv(s) && Enabled(s, Access(v, e))
    ensures Inv(Perform(s, Access(v, e))) && Simulated(s, Perform(s, Access(v, e)))
  {
    var s' := Perform(s, Access(v, e));
    if Ends(s, v, e) {
      EndsSimulated(s, v, e);
      var pe :| Below(s, pe, s');
      PP.StepKeepsInv(Abs(s), pe, Abs(s'));
    } else {
      MiddleIsUnseen(s, v, e);
      assert s' == OnRing(s, v, e);
      if IsConsumer(e) {
        MiddleConsumer(s, v, e);
      } else {
        MiddleProducer(s, v, e);
      }
    }
  }

  /** The composition: a step over the rings is a step of the pool over queues, or is not seen there. */
  lemma StepSimulates(s: State, e: Event, s': State)
    requires Inv(s) && Step(s, e, s')
    ensures Inv(s') && Simulated(s, s')
  {
    match e
    case Pool(step) =>
      PoolStep(s, step);
      assert Below(s, step, s');
    case CallTryPop(w) => CallTryPopStep(s, w);
    case CallLowSize(w) => CallLowSizeStep(s, w);
    case CallGrab(w) => CallGrabStep(s, w);
    case CallTryPush(w, task, hint) => CallTryPushStep(s, w, task, hint);
    case CallPushMany(w) => CallPushManyStep(s, w);
    case Access(v, access) => AccessStep(s, v, access);
  }

  lemma RunsKeepInv(states: seq<State>, events: seq<Event>)
    requires Runs.IsRun(Init, Step, states, events)
    ensures forall i :: 0 <= i < |states| ==> Inv(states[i])
  {
    forall s | Init(s) ensures Inv(s) { InitHolds(s); }
    forall s, e, s' | Inv(s) && Step(s, e, s') ensures Inv(s') { StepSimulates(s, e, s'); }
    Runs.Invariance(Init, Step, Inv, states, events);
  }

  ghost function Seen(s: State): P.State {
    if Shaped(s) then Abs(s) else s.pool
  }

  lemma SeenStep(s: State, e: Event, s': State)
    requires Inv(s) && Step(s, e, s') && Seen(s') != Seen(s)
    ensures exists pe :: P.Step(Seen(s), pe, Seen(s'))
  {
    StepSimulates(s, e, s');
    var pe :| Below(s, pe, s');
    assert P.Step(Seen(s), pe, Seen(s'));
  }

  lemma InitSeen(s: State)
    requires Init(s)
    ensures P.Init(Seen(s))
  {
    InitHolds(s);
  }

  lemma SeenRun(states: seq<State>, events: seq<Event>) returns (below: seq<P.State>, belowEvents: seq<P.Event>)
    requires Runs.IsRun(Init, Step, states, events) && forall i :: 0 <= i < |states| ==> Inv(states[i])
    ensures Runs.IsRun(P.Init, P.Step, below, belowEvents) && below[|below| - 1] == Seen(states[|states| - 1])
  {
    forall s | Init(s) ensures P.Init(Seen(s)) { InitSeen(s); }
    forall s, e, s' | Inv(s) && Step(s, e, s') && Seen(s') != Seen(s) ensures exists pe :: P.Step(Seen(s), pe, Seen(s')) {
      SeenStep(s, e, s');
    }
    below, belowEvents := Runs.Projection(Init, Step, P.Init, P.Step, Inv, Seen, states, events);
  }

  /** Every run over the rings is a run of the pool over queues, with the same pool at its end, so every theorem about
      all runs of the pool holds with its local queues implemented by the rings. */
  lemma ProjectsToPoolRun(states: seq<State>, events: seq<Event>) returns (below: seq<P.State>, belowEvents: seq<P.Event>)
    requires Runs.IsRun(Init, Step, states, events)
    ensures Runs.IsRun(P.Init, P.Step, below, belowEvents)
    ensures Shaped(states[|states| - 1]) && below[|below| - 1] == Abs(states[|states| - 1])
  {
    RunsKeepInv(states, events);
    assert Inv(states[|states| - 1]);
    below, belowEvents := SeenRun(states, events);
  }

  /** In particular the assertion of PushMany never fails on any ring, in any run of the whole pool. */
  lemma AssertionNeverFails(states: seq<State>, events: seq<Event>, i: nat, v: Id)
    requires Runs.IsRun(Init, Step, states, events) && i < |states| && 0 <= v < |states[i].rings|
    ensures states[i].rings[v].producer != R.Aborted
  {
    RunsKeepInv(states, events);
    assert Inv(states[i]) && ProducerFits(states[i], v);
  }

  /** Nor is a wakeup lost, with the local queues taken apart into single accesses. */
  lemma NoLostWakeup(states: seq<State>, events: seq<Event>, i: nat)
    requires Runs.IsRun(Init, Step, states, events) && i < |states|
    requires states[i].pool.queue != [] && P.OutsidersQuiet(states[i].pool)
    ensures exists w :: P.WillGrab(states[i].pool, w)
  {
    RunsKeepInv(states, events);
    var s := states[i];
    assert Inv(s) && P.WakeupInv(Abs(s));
    var w :| P.WillGrab(Abs(s), w);
    assert P.WillGrab(s.pool, w);
  }

  /** Every task is in the global queue, in one ring or elsewhere in one worker's hands, or finished: exactly once. */
  lemma TasksConserved(states: seq<State>, events: seq<Event>, i: nat)
    requires Runs.IsRun(Init, Step, states, events) && i < |states|
    ensures var s := states[i];
            Shaped(s) && multiset(s.pool.queue) + P.HeldByAll(Filled(s.pool.workers, s.rings)) + P.Finished(s.pool)
                         == multiset(s.pool.root.Keys)
  {
    RunsKeepInv(states, events);
    assert Inv(states[i]) && P.ConservationInv(Abs(states[i]));
  }

  /** What a thief goes for is half of what its LowSize reports, at most a whole queue's room. */
  lemma StealsHalf(s: State, v: Id, c: Id)
    requires Inv(s) && Enabled(s, Access(v, R.SizeLoadBegin(c)))
    ensures var pc' := PcAt(Perform(s, Access(v, R.SizeLoadBegin(c))), c);
            pc'.Take? && pc'.victim == v && pc'.limit == Min(R.SizeSeen(s.rings[v], c) / 2, 256)
  {
    SizeSeen(s, v, c, R.SizeSeen(s.rings[v], c));
    SizeEnds(s, v, c, R.SizeSeen(s.rings[v], c));
  }
}
