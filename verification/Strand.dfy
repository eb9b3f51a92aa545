/** The strand: a push-only lock-free stack of task nodes, drained by take-all, with one atomic flag as the right
    to schedule the strand in the underlying executor. Every atomic access is one event. Memory is explicit: a
    deleted node's address may be handed out again at once. The underlying executor is a queue that keeps what it
    is given; tasks do not throw. */
module StrandModel {
  import opened Counting
  import opened Lists

  type Id = int
  type Task = int
  type Addr = int

  const NULL: Addr := 0

  datatype Node = Node(prev: Addr, task: Task)

  /** A thread, by its next action. Nodes in a batch are listed oldest first. */
  datatype Pc =
    | Idle
    | Created(node: Addr)                      // Execute: about to read tasks_ into prev_
    | Linked(node: Addr, expected: Addr)       // about to compare-exchange tasks_
    | Published                                // about to exchange reschedule_
    | Scheduling                               // about to hand the strand to the underlying executor
    | Stealing                                 // Run: about to exchange tasks_ with null
    | FoundNone                                // about to store true to reschedule_
    | Rechecking                               // about to load tasks_
    | Reclaiming                               // about to exchange reschedule_
    | Reversing(cur: Addr, prev: Addr)         // inside the loop of Reverse
    | Draining(stolen: Addr)                   // about to run the next task of the batch, if any
    | Executing(stolen: Addr)                  // inside that task
    | Freeing(stolen: Addr)                    // about to read prev_ and delete the node

  datatype Owner = OnStack | By(thread: Id)

  datatype State = State(
    heap: map<Addr, Node>,                     // live nodes
    head: Addr,                                // tasks_
    flag: bool,                                // reschedule_
    queued: nat,                               // copies of the strand held by the underlying executor
    threads: map<Id, Pc>,
    // history
    pushed: seq<Task>,                         // tasks in the order of their successful compare-exchange
    executed: seq<Task>,
    stack: seq<Addr>,                          // nodes reachable from tasks_, newest first
    turned: nat,                               // how many nodes of the batch Reverse has turned around
    batch: seq<Addr>,                          // stolen nodes whose task has not finished, oldest first
    owner: map<Addr, Owner>)

  datatype Event =
    | Create(t: Id, node: Addr, task: Task)
    | LoadHead(t: Id)
    | PushExchange(t: Id)
    | TestFlag(t: Id)
    | Schedule(t: Id)
    | Start(t: Id)
    | Steal(t: Id)
    | SetFlag(t: Id)
    | Recheck(t: Id)
    | Reclaim(t: Id)
    | ReverseOne(t: Id)
    | ReverseDone(t: Id)
    | BeginTask(t: Id)
    | EndTask(t: Id)
    | Free(t: Id)
    | DrainDone(t: Id)

  ghost predicate Init(s: State) {
    && s.heap == map[] && s.head == NULL && s.flag && s.queued == 0
    && (forall t :: t in s.threads ==> s.threads[t] == Idle)
    && s.pushed == [] && s.executed == [] && s.stack == [] && s.turned == 0 && s.batch == [] && s.owner == map[]
  }

  ghost predicate At(s: State, t: Id, pc: Pc) {
    t in s.threads && s.threads[t] == pc
  }

  ghost function Go(s: State, t: Id, pc: Pc): State {
    s.(threads := s.threads[t := pc])
  }

  // ----- Execute

  ghost predicate CanCreate(s: State, t: Id, node: Addr) {
    At(s, t, Idle) && node != NULL && node !in s.heap
  }

  ghost function DoCreate(s: State, t: Id, node: Addr, task: Task): State {
    Go(s, t, Created(node)).(heap := s.heap[node := Node(NULL, task)], owner := s.owner[node := By(t)])
  }

  ghost predicate CanLoadHead(s: State, t: Id) {
    t in s.threads && s.threads[t].Created? && s.threads[t].node in s.heap
  }

  ghost function DoLoadHead(s: State, t: Id): State
    requires CanLoadHead(s, t)
  {
    var node := s.threads[t].node;
    Go(s, t, Linked(node, s.head)).(heap := s.heap[node := s.heap[node].(prev := s.head)])
  }

  ghost predicate CanPush(s: State, t: Id) {
    t in s.threads && s.threads[t].Linked? && s.threads[t].node in s.heap
  }

  ghost function DoPush(s: State, t: Id): State
    requires CanPush(s, t)
  {
    var pc := s.threads[t];
    if s.head != pc.expected then Go(s, t, Created(pc.node))
    else
      Go(s, t, Published).(head := pc.node, stack := [pc.node] + s.stack,
                           pushed := s.pushed + [s.heap[pc.node].task], owner := s.owner[pc.node := OnStack])
  }

  /** The exchange of reschedule_ with false, in Execute and again in Run. */
  ghost function DoTakeFlag(s: State, t: Id): State {
    Go(s, t, if s.flag then Scheduling else Idle).(flag := false)
  }

  ghost function DoSchedule(s: State, t: Id): State {
    Go(s, t, Idle).(queued := s.queued + 1)
  }

  // ----- Run

  ghost predicate CanStart(s: State, t: Id) {
    At(s, t, Idle) && s.queued > 0
  }

  ghost function DoStart(s: State, t: Id): State
    requires CanStart(s, t)
  {
    Go(s, t, Stealing).(queued := s.queued - 1)
  }

  ghost function DoSteal(s: State, t: Id): State {
    if s.head == NULL then Go(s, t, FoundNone)
    else
      Go(s, t, Reversing(NULL, s.head)).(
        head := NULL, stack := [], turned := 0, batch := Reversed(s.stack),
        owner := map a | a in s.owner :: if s.owner[a] == OnStack then By(t) else s.owner[a])
  }

  ghost predicate CanReverseOne(s: State, t: Id) {
    && t in s.threads && s.threads[t].Reversing? && s.threads[t].prev != NULL
    && s.threads[t].prev in s.heap
  }

  /** One turn of the loop of Reverse. */
  ghost function DoReverseOne(s: State, t: Id): State
    requires CanReverseOne(s, t)
  {
    var pc := s.threads[t];
    var save := s.heap[pc.prev].prev;
    Go(s, t, Reversing(pc.prev, save)).(
      turned := s.turned + 1, heap := s.heap[pc.prev := s.heap[pc.prev].(prev := pc.cur)])
  }

  ghost predicate CanEndTask(s: State, t: Id) {
    t in s.threads && s.threads[t].Executing? && s.threads[t].stolen in s.heap && s.batch != []
  }

  ghost function DoEndTask(s: State, t: Id): State
    requires CanEndTask(s, t)
  {
    var stolen := s.threads[t].stolen;
    Go(s, t, Freeing(stolen)).(executed := s.executed + [s.heap[stolen].task], batch := s.batch[1..])
  }

  ghost predicate CanFree(s: State, t: Id) {
    t in s.threads && s.threads[t].Freeing? && s.threads[t].stolen in s.heap
  }

  ghost function DoFree(s: State, t: Id): State
    requires CanFree(s, t)
  {
    var stolen := s.threads[t].stolen;
    Go(s, t, Draining(s.heap[stolen].prev)).(heap := s.heap - {stolen}, owner := s.owner - {stolen})
  }

  ghost predicate Enabled(s: State, e: Event) {
    match e
    case Create(t, node, task) => CanCreate(s, t, node)
    case LoadHead(t) => CanLoadHead(s, t)
    case PushExchange(t) => CanPush(s, t)
    case TestFlag(t) => At(s, t, Published)
    case Schedule(t) => At(s, t, Scheduling)
    case Start(t) => CanStart(s, t)
    case Steal(t) => At(s, t, Stealing)
    case SetFlag(t) => At(s, t, FoundNone)
    case Recheck(t) => At(s, t, Rechecking)
    case Reclaim(t) => At(s, t, Reclaiming)
    case ReverseOne(t) => CanReverseOne(s, t)
    case ReverseDone(t) => t in s.threads && s.threads[t].Reversing? && s.threads[t].prev == NULL
    case BeginTask(t) => t in s.threads && s.threads[t].Draining? && s.threads[t].stolen != NULL
    case EndTask(t) => CanEndTask(s, t)
    case Free(t) => CanFree(s, t)
    case DrainDone(t) => t in s.threads && s.threads[t].Draining? && s.threads[t].stolen == NULL
  }

  ghost function Perform(s: State, e: Event): State
    requires Enabled(s, e)
  {
    match e
    case Create(t, node, task) => DoCreate(s, t, node, task)
    case LoadHead(t) => DoLoadHead(s, t)
    case PushExchange(t) => DoPush(s, t)
    case TestFlag(t) => DoTakeFlag(s, t)
    case Schedule(t) => DoSchedule(s, t)
    case Start(t) => DoStart(s, t)
    case Steal(t) => DoSteal(s, t)
    case SetFlag(t) => Go(s, t, Rechecking).(flag := true)
    case Recheck(t) => Go(s, t, if s.head == NULL then Idle else Reclaiming)
    case Reclaim(t) => DoTakeFlag(s, t)
    case ReverseOne(t) => DoReverseOne(s, t)
    case ReverseDone(t) => Go(s, t, Draining(s.threads[t].cur))
    case BeginTask(t) => Go(s, t, Executing(s.threads[t].stolen))
    case EndTask(t) => DoEndTask(s, t)
    case Free(t) => DoFree(s, t)
    case DrainDone(t) => Go(s, t, Scheduling)
  }

  ghost predicate Step(s: State, e: Event, s': State) {
    Enabled(s, e) && s' == Perform(s, e)
  }

  // ----- invariants

  /** Following prev_ from a visits exactly these nodes and ends at null. */
  ghost predicate Chain(heap: map<Addr, Node>, a: Addr, nodes: seq<Addr>) {
    && a == From(nodes, 0)
    && forall i :: 0 <= i < |nodes| ==> Link(heap, nodes, i)
  }

  /** The node at place i, or null past the end. */
  ghost function From(nodes: seq<Addr>, i: nat): Addr {
    if i < |nodes| then nodes[i] else NULL
  }

  ghost predicate Link(heap: map<Addr, Node>, nodes: seq<Addr>, i: nat)
    requires i < |nodes|
  {
    nodes[i] != NULL && nodes[i] in heap && heap[nodes[i]].prev == From(nodes, i + 1)
  }

  ghost function Tasks(heap: map<Addr, Node>, nodes: seq<Addr>): seq<Task>
    requires AllIn(heap, nodes)
  {
    seq(|nodes|, i requires 0 <= i < |nodes| => heap[nodes[i]].task)
  }

  /** In charge of a stolen batch. */
  ghost predicate InBatch(pc: Pc) {
    pc.Reversing? || pc.Draining? || pc.Executing? || pc.Freeing?
  }

  /** Entitled to put the strand into the underlying executor. */
  ghost predicate HoldsToken(pc: Pc) {
    pc.Scheduling? || pc.Stealing? || pc.FoundNone? || InBatch(pc)
  }

  /** flag + copies in the executor + threads entitled to schedule is exactly one. */
  ghost predicate TokenInv(s: State) {
    (if s.flag then 1 else 0) + s.queued + Count(s.threads, HoldsToken) == 1
  }

  /** Committed to look at the flag or the stack again. */
  ghost predicate WillLook(pc: Pc) {
    pc.Published? || pc.Rechecking? || pc.Reclaiming?
  }

  ghost predicate ScheduleInv(s: State) {
    s.flag && s.head != NULL ==> exists t :: t in s.threads && WillLook(s.threads[t])
  }

  /** Thread t may touch node a. */
  ghost predicate Owns(s: State, pc: Pc, a: Addr) {
    || ((pc.Created? || pc.Linked?) && pc.node == a)
    || (InBatch(pc) && a in s.batch)
    || (pc.Freeing? && pc.stolen == a)
  }

  /** Every live node is either on the stack or in the hands of exactly one thread. */
  ghost predicate OwnerInv(s: State) {
    && s.owner.Keys == s.heap.Keys
    && NULL !in s.heap
    && (forall a :: a in s.stack ==> a in s.owner && s.owner[a] == OnStack)
    && (forall a :: a in s.owner && s.owner[a] == OnStack ==> a in s.stack)
    && (forall t, a :: t in s.threads && Owns(s, s.threads[t], a) ==> a in s.owner && s.owner[a] == By(t))
    && (forall a :: a in s.owner && s.owner[a] != OnStack ==>
          s.owner[a].thread in s.threads && Owns(s, s.threads[s.owner[a].thread], a))
  }

  /** The part of the batch already turned around, oldest first. */
  ghost function Done(s: State): seq<Addr>
    requires s.turned <= |s.batch|
  {
    s.batch[|s.batch| - s.turned..]
  }

  /** The part of the batch still linked newest first. */
  ghost function Rest(s: State): seq<Addr>
    requires s.turned <= |s.batch|
  {
    Reversed(s.batch[..|s.batch| - s.turned])
  }

  /** A thread's own pointers. */
  ghost predicate PointersOk(s: State, pc: Pc) {
    match pc
    case Linked(node, expected) => node in s.heap && s.heap[node].prev == expected
    case Reversing(cur, prev) =>
      s.turned <= |s.batch| && Chain(s.heap, cur, Done(s)) && Chain(s.heap, prev, Rest(s))
    case Draining(stolen) => Chain(s.heap, stolen, s.batch)
    case Executing(stolen) => Chain(s.heap, stolen, s.batch) && s.batch != []
    case Freeing(stolen) => Chain(s.heap, stolen, [stolen] + s.batch) && stolen !in s.batch
    case _ => true
  }

  ghost predicate ShapeInv(s: State) {
    && Chain(s.heap, s.head, s.stack) && NoDup(s.stack)
    && AllIn(s.heap, s.batch) && NoDup(s.batch)
    && (s.batch != [] ==> exists t :: t in s.threads && InBatch(s.threads[t]))
    && (forall t :: t in s.threads ==> PointersOk(s, s.threads[t]))
  }

  ghost predicate AllIn(heap: map<Addr, Node>, nodes: seq<Addr>) {
    forall i :: 0 <= i < |nodes| ==> nodes[i] in heap
  }

  /** Finished tasks, then the rest of the batch, then the stack from its bottom, are the pushed tasks in order. */
  ghost predicate OrderInv(s: State) {
    && AllIn(s.heap, s.stack) && AllIn(s.heap, s.batch)
    && s.executed + Tasks(s.heap, s.batch) + Tasks(s.heap, Reversed(s.stack)) == s.pushed
  }

  ghost predicate Inv(s: State) {
    TokenInv(s) && ScheduleInv(s) && OwnerInv(s) && ShapeInv(s) && OrderInv(s)
  }
}
