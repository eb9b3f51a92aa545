/** The queue spin lock: a linked queue of nodes, each inside a guard on its thread's stack, each thread spinning
    on its own node. Every atomic access is one event, and so are the construction and destruction of a guard, whose
    address may be used again at once. */
module QueueSpinLockModel {
  import Histories
  import opened Lists
  import Runs

  type Id = int
  type Addr = int

  const NULL: Addr := 0

  datatype SpinNode = SpinNode(next: Addr, notChanged: bool)

  /** A thread, by its next action. */
  datatype Pc =
    | Idle
    | Constructed(node: Addr)              // about to exchange end_
    | Linking(node: Addr, prev: Addr)      // about to store prev->next_
    | Spinning(node: Addr)                 // about to load its own not_changed_
    | Critical(node: Addr)                 // next: compare-exchange end_ with null
    | Polling(node: Addr)                  // about to load its own next_, waiting for a successor
    | Loading(node: Addr)                  // about to load its own next_ again
    | Signalling(node: Addr, succ: Addr)   // about to store succ->not_changed_
    | Leaving(node: Addr)                  // about to destroy the guard

  datatype State = State(
    nodes: map<Addr, SpinNode>,            // nodes of live guards
    end: Addr,
    threads: map<Id, Pc>,
    // history
    holder: map<Addr, Id>,                 // whose guard a live node is in
    queue: seq<Id>,                        // threads between their exchange and their hand-over, in exchange order
    arrivals: seq<Id>,                     // order of the exchanges
    grants: seq<Id>)                       // order of entries into the critical section

  datatype Event =
    | Construct(t: Id, node: Addr)
    | Exchange(t: Id)
    | Link(t: Id)
    | Spin(t: Id)
    | TryClose(t: Id)
    | Poll(t: Id)
    | LoadNext(t: Id)
    | Signal(t: Id)
    | Destroy(t: Id)

  ghost predicate Init(s: State) {
    && s.nodes == map[] && s.end == NULL && s.holder == map[]
    && (forall t :: t in s.threads ==> s.threads[t] == Idle)
    && s.queue == [] && s.arrivals == [] && s.grants == []
  }

  ghost predicate Enabled(s: State, e: Event) {
    && e.t in s.threads
    && var pc := s.threads[e.t];
       match e
       case Construct(t, node) => pc.Idle? && node != NULL && node !in s.nodes
       case Exchange(t) => pc.Constructed?
       case Link(t) => pc.Linking? && pc.prev in s.nodes
       case Spin(t) => pc.Spinning? && pc.node in s.nodes
       case TryClose(t) => pc.Critical?
       case Poll(t) => pc.Polling? && pc.node in s.nodes
       case LoadNext(t) => pc.Loading? && pc.node in s.nodes
       case Signal(t) => pc.Signalling? && pc.succ in s.nodes && s.queue != []
       case Destroy(t) => pc.Leaving?
  }

  ghost function Go(s: State, t: Id, pc: Pc): State {
    s.(threads := s.threads[t := pc])
  }

  ghost function DoConstruct(s: State, t: Id, node: Addr): State {
    Go(s, t, Constructed(node)).(nodes := s.nodes[node := SpinNode(NULL, true)], holder := s.holder[node := t])
  }

  ghost function DoExchange(s: State, t: Id): State
    requires Enabled(s, Exchange(t))
  {
    var node := s.threads[t].node;
    var s' := s.(end := node, queue := s.queue + [t], arrivals := s.arrivals + [t]);
    if s.end == NULL then Go(s', t, Critical(node)).(grants := s.grants + [t])
    else Go(s', t, Linking(node, s.end))
  }

  ghost function DoLink(s: State, t: Id): State
    requires Enabled(s, Link(t))
  {
    var pc := s.threads[t];
    Go(s, t, Spinning(pc.node)).(nodes := s.nodes[pc.prev := s.nodes[pc.prev].(next := pc.node)])
  }

  ghost function DoSpin(s: State, t: Id): State
    requires Enabled(s, Spin(t))
  {
    var node := s.threads[t].node;
    if s.nodes[node].notChanged then s
    else Go(s, t, Critical(node)).(grants := s.grants + [t])
  }

  ghost function DoTryClose(s: State, t: Id): State
    requires Enabled(s, TryClose(t))
  {
    var node := s.threads[t].node;
    if s.end == node then Go(s, t, Leaving(node)).(end := NULL, queue := [])
    else Go(s, t, Polling(node))
  }

  ghost function DoSignal(s: State, t: Id): State
    requires Enabled(s, Signal(t))
  {
    var pc := s.threads[t];
    Go(s, t, Leaving(pc.node)).(nodes := s.nodes[pc.succ := s.nodes[pc.succ].(notChanged := false)],
                                queue := s.queue[1..])
  }

  ghost function DoDestroy(s: State, t: Id): State
    requires Enabled(s, Destroy(t))
  {
    var node := s.threads[t].node;
    Go(s, t, Idle).(nodes := s.nodes - {node}, holder := s.holder - {node})
  }

  ghost function Perform(s: State, e: Event): State
    requires Enabled(s, e)
  {
    match e
    case Construct(t, node) => DoConstruct(s, t, node)
    case Exchange(t) => DoExchange(s, t)
    case Link(t) => DoLink(s, t)
    case Spin(t) => DoSpin(s, t)
    case TryClose(t) => DoTryClose(s, t)
    case Poll(t) => if s.nodes[s.threads[t].node].next == NULL then s else Go(s, t, Loading(s.threads[t].node))
    case LoadNext(t) => Go(s, t, Signalling(s.threads[t].node, s.nodes[s.threads[t].node].next))
    case Signal(t) => DoSignal(s, t)
    case Destroy(t) => DoDestroy(s, t)
  }

  ghost predicate Step(s: State, e: Event, s': State) {
    Enabled(s, e) && s' == Perform(s, e)
  }

  // ----- invariants

  /** Between its exchange and its hand-over. */
  ghost predicate Queued(pc: Pc) {
    !pc.Idle? && !pc.Constructed? && !pc.Leaving?
  }

  /** Has entered the critical section and not handed over yet. */
  ghost predicate Entered(pc: Pc) {
    pc.Critical? || pc.Polling? || pc.Loading? || pc.Signalling?
  }

  /** Every live node is in exactly one thread's guard. */
  ghost predicate NodesInv(s: State) {
    && s.holder.Keys == s.nodes.Keys && NULL !in s.nodes
    && (forall t :: t in s.threads && !s.threads[t].Idle? ==>
          s.threads[t].node in s.holder && s.holder[s.threads[t].node] == t)
    && (forall a :: a in s.holder ==>
          s.holder[a] in s.threads && !s.threads[s.holder[a]].Idle? && s.threads[s.holder[a]].node == a)
    && (forall t :: t in s.threads && s.threads[t].Constructed? ==>
          s.threads[t].node in s.nodes && s.nodes[s.threads[t].node] == SpinNode(NULL, true))
  }

  ghost function PcOf(s: State, t: Id): Pc {
    if t in s.threads then s.threads[t] else Idle
  }

  ghost function NodeOf(s: State, t: Id): Addr {
    if PcOf(s, t).Idle? then NULL else PcOf(s, t).node
  }

  ghost function Mem(s: State, a: Addr): SpinNode {
    if a in s.nodes then s.nodes[a] else SpinNode(NULL, true)
  }

  ghost predicate QueueInv(s: State) {
    && NoDup(s.queue)
    && (forall t :: t in s.queue ==> Queued(PcOf(s, t)))
    && (forall t :: t in s.threads && Queued(s.threads[t]) ==> t in s.queue)
    && s.end == (if s.queue == [] then NULL else NodeOf(s, s.queue[|s.queue| - 1]))
  }

  /** The link from thread t to the thread u that exchanged right after it. */
  ghost predicate LinkOk(s: State, t: Id, u: Id) {
    && Mem(s, NodeOf(s, u)).notChanged
    && ((PcOf(s, u).Spinning? && Mem(s, NodeOf(s, t)).next == NodeOf(s, u))
        || (PcOf(s, u).Linking? && PcOf(s, u).prev == NodeOf(s, t) && Mem(s, NodeOf(s, t)).next == NULL))
  }

  ghost predicate LinksInv(s: State) {
    && (forall i :: 1 <= i < |s.queue| ==> LinkOk(s, s.queue[i - 1], s.queue[i]))
    && (s.queue != [] ==> Mem(s, NodeOf(s, s.queue[|s.queue| - 1])).next == NULL)
    && (s.queue != [] ==> HeadOk(s, s.queue[0]))
  }

  /** The head is in, or has been let in; on its way out it has seen its successor. */
  ghost predicate HeadOk(s: State, t: Id) {
    match PcOf(s, t)
    case Spinning(node) => !Mem(s, node).notChanged
    case Critical(node) => true
    case Polling(node) => |s.queue| > 1
    case Loading(node) => Mem(s, node).next != NULL
    case Signalling(node, succ) => Mem(s, node).next == succ != NULL
    case _ => false
  }

  /** Grants follow arrivals. */
  ghost predicate OrderInv(s: State) {
    && |s.queue| <= |s.arrivals|
    && s.queue == s.arrivals[|s.arrivals| - |s.queue|..]
    && s.grants == s.arrivals[..|s.arrivals| - |s.queue|]
                   + (if s.queue != [] && Entered(PcOf(s, s.queue[0])) then [s.queue[0]] else [])
  }

  ghost predicate Inv(s: State) {
    NodesInv(s) && QueueInv(s) && LinksInv(s) && OrderInv(s)
  }

  // ----- every step keeps the invariant

  /** Only the head of the queue can have entered, or find its flag cleared. */
  lemma OthersSpin(s: State, t: Id)
    requires QueueInv(s) && LinksInv(s) && t in s.threads && Queued(s.threads[t])
    requires Entered(s.threads[t]) || !Mem(s, NodeOf(s, t)).notChanged
    ensures s.queue != [] && s.queue[0] == t
  {
    var i :| 0 <= i < |s.queue| && s.queue[i] == t;
    assert i > 0 ==> LinkOk(s, s.queue[i - 1], s.queue[i]);
  }

  /** Two threads never share a node. */
  lemma NodesApart(s: State, t: Id, u: Id)
    requires NodesInv(s) && t != u && NodeOf(s, t) != NULL
    ensures NodeOf(s, t) != NodeOf(s, u)
  {
  }

  lemma NodeLive(s: State, t: Id)
    requires NodesInv(s) && !PcOf(s, t).Idle?
    ensures NodeOf(s, t) in s.nodes && NodeOf(s, t) != NULL
  {
  }

  lemma QueueFrame(s: State, s': State)
    requires QueueInv(s) && s'.queue == s.queue && s'.end == s.end
    requires forall u :: Queued(PcOf(s', u)) <==> Queued(PcOf(s, u))
    requires forall u :: u in s.queue ==> NodeOf(s', u) == NodeOf(s, u)
    ensures QueueInv(s')
  {
    forall u | u in s'.threads && Queued(s'.threads[u]) ensures u in s'.queue {
      assert Queued(PcOf(s, u));
    }
    if s.queue != [] {
      assert s.queue[|s.queue| - 1] in s.queue;
    }
  }

  lemma OrderFrame(s: State, s': State)
    requires OrderInv(s) && s'.queue == s.queue && s'.arrivals == s.arrivals && s'.grants == s.grants
    requires s.queue != [] ==> (Entered(PcOf(s', s.queue[0])) <==> Entered(PcOf(s, s.queue[0])))
    ensures OrderInv(s')
  {
  }

  lemma LinkFrame(s: State, s': State, t: Id, u: Id)
    requires LinkOk(s, t, u)
    requires PcOf(s', u) == PcOf(s, u) && NodeOf(s', t) == NodeOf(s, t)
    requires Mem(s', NodeOf(s, t)) == Mem(s, NodeOf(s, t)) && Mem(s', NodeOf(s, u)) == Mem(s, NodeOf(s, u))
    ensures LinkOk(s', t, u)
  {
  }

  /** The head moves on with the same node. */
  ghost predicate HeadStep(s: State, t: Id, pc: Pc) {
    && s.queue != [] && s.queue[0] == t && t in s.threads
    && Queued(pc) && pc.node == NodeOf(s, t) && HeadOk(Go(s, t, pc), t)
  }

  lemma HeadNodes(s: State, t: Id, pc: Pc)
    requires NodesInv(s) && QueueInv(s) && HeadStep(s, t, pc)
    ensures NodesInv(Go(s, t, pc))
  {
  }

  lemma HeadQueue(s: State, t: Id, pc: Pc)
    requires QueueInv(s) && HeadStep(s, t, pc)
    ensures QueueInv(Go(s, t, pc))
    ensures forall u :: NodeOf(Go(s, t, pc), u) == NodeOf(s, u)
  {
  }

  lemma HeadLinks(s: State, t: Id, pc: Pc)
    requires QueueInv(s) && LinksInv(s) && HeadStep(s, t, pc)
    ensures LinksInv(Go(s, t, pc))
  {
    var s' := Go(s, t, pc);
    HeadQueue(s, t, pc);
    forall i | 1 <= i < |s'.queue| ensures LinkOk(s', s'.queue[i - 1], s'.queue[i]) {
      assert s.queue[0] != s.queue[i];
      LinkFrame(s, s', s.queue[i - 1], s.queue[i]);
    }
  }

  lemma HeadOrder(s: State, t: Id, pc: Pc, grants: seq<Id>)
    requires OrderInv(s) && HeadStep(s, t, pc)
    requires grants == s.arrivals[..|s.arrivals| - |s.queue|] + (if Entered(pc) then [t] else [])
    ensures OrderInv(Go(s, t, pc).(grants := grants))
  {
  }

  lemma HeadMoves(s: State, t: Id, pc: Pc, grants: seq<Id>)
    requires Inv(s) && HeadStep(s, t, pc)
    requires grants == s.arrivals[..|s.arrivals| - |s.queue|] + (if Entered(pc) then [t] else [])
    ensures Inv(Go(s, t, pc).(grants := grants))
  {
    HeadNodes(s, t, pc);
    HeadQueue(s, t, pc);
    HeadLinks(s, t, pc);
    SameButGrants(Go(s, t, pc), grants);
    HeadOrder(s, t, pc, grants);
  }

  /** Only the order invariant looks at the history of grants. */
  lemma SameButGrants(s: State, grants: seq<Id>)
    requires NodesInv(s) && QueueInv(s) && LinksInv(s)
    ensures var s' := s.(grants := grants); NodesInv(s') && QueueInv(s') && LinksInv(s')
  {
    var s' := s.(grants := grants);
    forall u ensures PcOf(s', u) == PcOf(s, u) && NodeOf(s', u) == NodeOf(s, u) { }
    forall i | 1 <= i < |s.queue| ensures LinkOk(s', s.queue[i - 1], s.queue[i]) {
      assert LinkOk(s, s.queue[i - 1], s.queue[i]);
    }
  }

  // construction and destruction: a node outside the queue comes or goes

  lemma OutsiderLinks(s: State, s': State, t: Id)
    requires NodesInv(s) && QueueInv(s) && LinksInv(s)
    requires s'.queue == s.queue && t !in s.queue
    requires forall u :: u != t ==> PcOf(s', u) == PcOf(s, u)
    requires forall u :: u in s.queue ==> Mem(s', NodeOf(s, u)) == Mem(s, NodeOf(s, u))
    ensures LinksInv(s')
  {
    forall i | 1 <= i < |s'.queue| ensures LinkOk(s', s'.queue[i - 1], s'.queue[i]) {
      assert s.queue[i - 1] in s.queue && s.queue[i] in s.queue;
      LinkFrame(s, s', s.queue[i - 1], s.queue[i]);
    }
    if s.queue != [] {
      assert s.queue[0] in s.queue && s.queue[|s.queue| - 1] in s.queue;
    }
  }

  lemma ConstructKeeps(s: State, t: Id, node: Addr)
    requires Inv(s) && Enabled(s, Construct(t, node))
    ensures Inv(DoConstruct(s, t, node))
  {
    var s' := DoConstruct(s, t, node);
    ConstructNodes(s, t, node);
    assert t !in s.queue;
    assert forall u :: u != t ==> PcOf(s', u) == PcOf(s, u);
    forall u | u in s.queue ensures Mem(s', NodeOf(s, u)) == Mem(s, NodeOf(s, u)) { NodeLive(s, u); }
    OutsiderLinks(s, s', t);
    OutsiderOrder(s, s', t);
  }

  lemma ConstructNodes(s: State, t: Id, node: Addr)
    requires NodesInv(s) && Enabled(s, Construct(t, node))
    ensures NodesInv(DoConstruct(s, t, node))
  {
  }

  lemma OutsiderOrder(s: State, s': State, t: Id)
    requires QueueInv(s) && OrderInv(s) && t !in s.queue && !Queued(PcOf(s', t)) && !Queued(PcOf(s, t))
    requires s'.queue == s.queue && s'.end == s.end && s'.arrivals == s.arrivals && s'.grants == s.grants
    requires forall u :: u != t ==> PcOf(s', u) == PcOf(s, u)
    ensures QueueInv(s') && OrderInv(s')
  {
    if s.queue != [] {
      assert s.queue[0] in s.queue;
    }
    QueueFrame(s, s');
    OrderFrame(s, s');
  }

  lemma DestroyKeeps(s: State, t: Id)
    requires Inv(s) && Enabled(s, Destroy(t))
    ensures Inv(DoDestroy(s, t))
  {
    var s' := DoDestroy(s, t);
    DestroyNodes(s, t);
    assert t !in s.queue;
    assert forall u :: u != t ==> PcOf(s', u) == PcOf(s, u);
    forall u | u in s.queue ensures Mem(s', NodeOf(s, u)) == Mem(s, NodeOf(s, u)) { NodesApart(s, t, u); }
    OutsiderLinks(s, s', t);
    OutsiderOrder(s, s', t);
  }

  lemma DestroyNodes(s: State, t: Id)
    requires NodesInv(s) && Enabled(s, Destroy(t))
    ensures NodesInv(DoDestroy(s, t))
  {
  }

  // joining the queue

  lemma ExchangeNodes(s: State, t: Id)
    requires NodesInv(s) && Enabled(s, Exchange(t))
    ensures NodesInv(DoExchange(s, t))
  {
  }

  lemma ExchangeQueue(s: State, t: Id)
    requires NodesInv(s) && QueueInv(s) && Enabled(s, Exchange(t))
    ensures QueueInv(DoExchange(s, t)) && t !in s.queue
    ensures s.end == NULL <==> s.queue == []
  {
    var s' := DoExchange(s, t);
    assert t !in s.queue;
    if s.queue != [] {
      assert s.queue[|s.queue| - 1] in s.queue;
      NodeLive(s, s.queue[|s.queue| - 1]);
    }
    assert forall u :: u != t ==> PcOf(s', u) == PcOf(s, u);
    forall u | u in s'.threads && Queued(s'.threads[u]) ensures u in s'.queue {
      assert u != t ==> u in s.queue;
    }
    forall u | u in s'.queue ensures Queued(PcOf(s', u)) {
      assert u == t || u in s.queue;
    }
  }

  lemma SuffixGrows(all: seq<Id>, last: seq<Id>, t: Id)
    requires |last| <= |all| && last == all[|all| - |last|..]
    ensures last + [t] == (all + [t])[|all| - |last|..]
    ensures all[..|all| - |last|] == (all + [t])[..|all| - |last|]
  {
  }

  lemma ExchangeFirst(s: State, t: Id)
    requires OrderInv(s) && Enabled(s, Exchange(t)) && s.end == NULL && s.queue == []
    ensures OrderInv(DoExchange(s, t))
  {
    assert s.arrivals[..|s.arrivals|] == s.arrivals;
  }

  lemma ExchangeBehind(s: State, t: Id)
    requires OrderInv(s) && Enabled(s, Exchange(t)) && t !in s.queue && s.end != NULL && s.queue != []
    ensures OrderInv(DoExchange(s, t))
  {
    SuffixGrows(s.arrivals, s.queue, t);
    assert s.queue[0] in s.queue;
    assert PcOf(DoExchange(s, t), s.queue[0]) == PcOf(s, s.queue[0]);
  }

  lemma ExchangeOrder(s: State, t: Id)
    requires OrderInv(s) && Enabled(s, Exchange(t)) && t !in s.queue && (s.end == NULL <==> s.queue == [])
    ensures OrderInv(DoExchange(s, t))
  {
    if s.queue == [] {
      ExchangeFirst(s, t);
    } else {
      ExchangeBehind(s, t);
    }
  }

  lemma ExchangeLinks(s: State, t: Id)
    requires NodesInv(s) && QueueInv(s) && LinksInv(s) && Enabled(s, Exchange(t))
    requires t !in s.queue && (s.end == NULL <==> s.queue == [])
    ensures LinksInv(DoExchange(s, t))
  {
    var s' := DoExchange(s, t);
    var n := |s.queue|;
    assert forall u :: u != t ==> PcOf(s', u) == PcOf(s, u);
    assert Mem(s, NodeOf(s, t)) == SpinNode(NULL, true);
    forall i | 1 <= i < |s'.queue| ensures LinkOk(s', s'.queue[i - 1], s'.queue[i]) {
      if i < n {
        assert s.queue[i] in s.queue && s.queue[i - 1] in s.queue;
        LinkFrame(s, s', s.queue[i - 1], s.queue[i]);
      } else {
        assert s.queue[n - 1] in s.queue;
      }
    }
    if n > 0 {
      assert s.queue[0] in s.queue;
    }
  }

  lemma ExchangeKeeps(s: State, t: Id)
    requires Inv(s) && Enabled(s, Exchange(t))
    ensures Inv(DoExchange(s, t))
  {
    ExchangeNodes(s, t);
    ExchangeQueue(s, t);
    ExchangeOrder(s, t);
    ExchangeLinks(s, t);
  }

  // linking behind the predecessor

  lemma LinkNodes(s: State, t: Id)
    requires NodesInv(s) && Enabled(s, Link(t))
    requires forall u :: u in s.threads && s.threads[u].Constructed? ==> s.threads[u].node != s.threads[t].prev
    ensures NodesInv(DoLink(s, t))
  {
  }

  /** The thread right before t in the queue, whose node t is about to write. */
  lemma Predecessor(s: State, t: Id) returns (i: nat)
    requires QueueInv(s) && LinksInv(s) && t in s.threads && s.threads[t].Linking?
    ensures 1 <= i < |s.queue| && s.queue[i] == t && s.threads[t].prev == NodeOf(s, s.queue[i - 1])
    ensures Mem(s, s.threads[t].prev).next == NULL
  {
    assert t in s.queue;
    i :| 0 <= i < |s.queue| && s.queue[i] == t;
    assert i > 0 ==> LinkOk(s, s.queue[i - 1], s.queue[i]);
  }

  lemma LinkLinks(s: State, t: Id, i: nat)
    requires NodesInv(s) && QueueInv(s) && LinksInv(s) && Enabled(s, Link(t))
    requires 1 <= i < |s.queue| && s.queue[i] == t && s.threads[t].prev == NodeOf(s, s.queue[i - 1])
    ensures LinksInv(DoLink(s, t))
  {
    var s' := DoLink(s, t);
    var p := s.queue[i - 1];
    assert forall u :: u != t ==> PcOf(s', u) == PcOf(s, u);
    assert forall u :: NodeOf(s', u) == NodeOf(s, u);
    forall u | u in s.queue && u != p ensures Mem(s', NodeOf(s, u)) == Mem(s, NodeOf(s, u)) {
      NodesApart(s, p, u);
    }
    assert Mem(s', NodeOf(s, p)).notChanged == Mem(s, NodeOf(s, p)).notChanged;
    forall j | 1 <= j < |s'.queue| ensures LinkOk(s', s'.queue[j - 1], s'.queue[j]) {
      assert s.queue[j] in s.queue && s.queue[j - 1] in s.queue;
      assert LinkOk(s, s.queue[j - 1], s.queue[j]);
      assert j != i ==> s.queue[j - 1] != p && s.queue[j] != t;
    }
    assert s.queue[0] in s.queue && s.queue[|s.queue| - 1] in s.queue && s.queue[|s.queue| - 1] != p;
    assert LinkOk(s, p, t);
    LinkHead(s, s', t, p);
  }

  lemma LinkHead(s: State, s': State, t: Id, p: Id)
    requires LinksInv(s) && s.queue != [] && s'.queue == s.queue && s.queue[0] != t
    requires PcOf(s', s.queue[0]) == PcOf(s, s.queue[0])
    requires Mem(s, NodeOf(s, p)).next == NULL && Mem(s', NodeOf(s, p)).notChanged == Mem(s, NodeOf(s, p)).notChanged
    requires s.queue[0] != p ==> Mem(s', NodeOf(s, s.queue[0])) == Mem(s, NodeOf(s, s.queue[0]))
    requires PcOf(s, t).Linking? && NodeOf(s, p) == PcOf(s, t).prev
    ensures HeadOk(s', s.queue[0])
  {
  }

  lemma LinkKeeps(s: State, t: Id)
    requires Inv(s) && Enabled(s, Link(t))
    ensures Inv(DoLink(s, t))
  {
    var s' := DoLink(s, t);
    var i := Predecessor(s, t);
    var p := s.queue[i - 1];
    assert p in s.queue;
    forall u | u in s.threads && s.threads[u].Constructed? ensures s.threads[u].node != s.threads[t].prev {
      NodeLive(s, p);
      NodesApart(s, p, u);
    }
    LinkNodes(s, t);
    LinkLinks(s, t, i);
    LinkQueue(s, t);
  }

  lemma LinkStays(s: State, t: Id)
    requires Enabled(s, Link(t))
    ensures forall u :: Queued(PcOf(DoLink(s, t), u)) <==> Queued(PcOf(s, u))
    ensures forall u :: Entered(PcOf(DoLink(s, t), u)) <==> Entered(PcOf(s, u))
    ensures forall u :: NodeOf(DoLink(s, t), u) == NodeOf(s, u)
  {
  }

  lemma LinkQueue(s: State, t: Id)
    requires QueueInv(s) && OrderInv(s) && Enabled(s, Link(t))
    ensures QueueInv(DoLink(s, t)) && OrderInv(DoLink(s, t))
  {
    LinkStays(s, t);
    QueueFrame(s, DoLink(s, t));
    OrderFrame(s, DoLink(s, t));
  }

  // leaving the queue

  /** The queue's last node is this head's node exactly when nobody is behind it. */
  lemma LastIsHead(s: State, t: Id)
    requires NodesInv(s) && QueueInv(s) && s.queue != [] && s.queue[0] == t
    ensures s.end == NodeOf(s, t) <==> |s.queue| == 1
  {
    var last := s.queue[|s.queue| - 1];
    NodeLive(s, t);
    if last != t {
      NodesApart(s, t, last);
    }
  }

  lemma OnlyOne(s: State, t: Id)
    requires Inv(s) && Enabled(s, TryClose(t))
    ensures s.end == s.threads[t].node <==> s.queue == [t]
  {
    OthersSpin(s, t);
    LastIsHead(s, t);
  }

  /** On its way out the head has seen whoever exchanged right after it. */
  lemma SuccessorIsNext(s: State, t: Id)
    requires Inv(s) && t in s.threads && s.threads[t].Signalling?
    ensures |s.queue| > 1 && s.queue[0] == t && s.threads[t].succ == NodeOf(s, s.queue[1])
  {
    OthersSpin(s, t);
    assert LinkOk(s, s.queue[0], s.queue[1]);
  }

  /** Spinning with its flag cleared. */
  ghost predicate LetIn(s: State, t: Id) {
    PcOf(s, t).Spinning? && !Mem(s, NodeOf(s, t)).notChanged
  }

  lemma OnlyHeadLetIn(s: State)
    requires LinksInv(s) && s.queue != [] && !Entered(PcOf(s, s.queue[0]))
    ensures LetIn(s, s.queue[0]) && forall u :: u in s.queue[1..] ==> !LetIn(s, u)
  {
    forall u | u in s.queue[1..] ensures !LetIn(s, u) {
      var i :| 0 <= i < |s.queue[1..]| && s.queue[1..][i] == u;
      assert LinkOk(s, s.queue[i], s.queue[i + 1]);
    }
  }

  /** The lock goes to whoever asked next, and to nobody else. */
  lemma SignalLetsIn(s: State, t: Id)
    requires Inv(s) && Enabled(s, Signal(t))
    ensures var s' := Perform(s, Signal(t));
            && s.queue == [t] + s'.queue && s'.queue != [] && LetIn(s', s'.queue[0])
            && forall u :: u in s'.queue[1..] ==> !LetIn(s', u)
  {
    SuccessorIsNext(s, t);
    StepKeepsInv(s, Signal(t), Perform(s, Signal(t)));
    assert LinkOk(s, s.queue[0], s.queue[1]);
    OnlyHeadLetIn(Perform(s, Signal(t)));
  }

  lemma CloseKeeps(s: State, t: Id)
    requires Inv(s) && Enabled(s, TryClose(t)) && s.end == s.threads[t].node
    ensures Inv(DoTryClose(s, t))
  {
    var s' := DoTryClose(s, t);
    OthersSpin(s, t);
    LastIsHead(s, t);
    assert s.queue == [t];
    assert forall u :: u != t ==> PcOf(s', u) == PcOf(s, u);
    assert NodesInv(s');
    CloseOrder(s, t);
  }

  lemma CloseOrder(s: State, t: Id)
    requires QueueInv(s) && OrderInv(s) && Enabled(s, TryClose(t)) && s.end == s.threads[t].node && s.queue == [t]
    ensures QueueInv(DoTryClose(s, t)) && OrderInv(DoTryClose(s, t))
  {
    var s' := DoTryClose(s, t);
    forall u | u in s'.threads ensures !Queued(s'.threads[u]) {
      assert Queued(s.threads[u]) ==> u in s.queue;
    }
    var n := |s.arrivals|;
    assert s.arrivals[..n - 1] + [t] == s.arrivals by {
      assert s.arrivals == s.arrivals[..n - 1] + s.arrivals[n - 1..];
    }
  }

  lemma KeepWaitingKeeps(s: State, t: Id)
    requires Inv(s) && Enabled(s, TryClose(t)) && s.end != s.threads[t].node
    ensures Inv(DoTryClose(s, t))
  {
    OthersSpin(s, t);
    LastIsHead(s, t);
    HeadMoves(s, t, Polling(s.threads[t].node), s.grants);
  }

  /** The successor a signaller found is the next thread in the queue, spinning on its own live node. */
  lemma Successor(s: State, t: Id)
    requires Inv(s) && t in s.threads && s.threads[t].Signalling?
    ensures |s.queue| > 1 && s.queue[0] == t
    ensures PcOf(s, s.queue[1]).Spinning? && NodeOf(s, s.queue[1]) == s.threads[t].succ
  {
    OthersSpin(s, t);
    assert HeadOk(s, t);
    assert LinkOk(s, s.queue[0], s.queue[1]);
  }

  lemma SignalLinks(s: State, t: Id)
    requires NodesInv(s) && QueueInv(s) && LinksInv(s) && Enabled(s, Signal(t))
    requires |s.queue| > 1 && s.queue[0] == t
    requires PcOf(s, s.queue[1]).Spinning? && NodeOf(s, s.queue[1]) == s.threads[t].succ
    ensures LinksInv(DoSignal(s, t))
  {
    var s' := DoSignal(s, t);
    var v := s.queue[1];
    assert forall u :: u != t ==> PcOf(s', u) == PcOf(s, u);
    assert forall u :: NodeOf(s', u) == NodeOf(s, u);
    assert v in s.queue;
    NodeLive(s, v);
    forall u | u in s.queue && u != v ensures Mem(s', NodeOf(s, u)) == Mem(s, NodeOf(s, u)) {
      NodesApart(s, v, u);
    }
    assert Mem(s', NodeOf(s, v)).next == Mem(s, NodeOf(s, v)).next;
    forall j | 1 <= j < |s'.queue| ensures LinkOk(s', s'.queue[j - 1], s'.queue[j]) {
      assert s.queue[j] in s.queue && s.queue[j + 1] in s.queue;
      assert LinkOk(s, s.queue[j], s.queue[j + 1]);
    }
    assert s.queue[|s.queue| - 1] in s.queue;
  }

  lemma SignalQueue(s: State, t: Id)
    requires QueueInv(s) && Enabled(s, Signal(t)) && |s.queue| > 1 && s.queue[0] == t
    ensures QueueInv(DoSignal(s, t))
  {
    var s' := DoSignal(s, t);
    assert forall u :: u != t ==> PcOf(s', u) == PcOf(s, u);
    assert forall u :: NodeOf(s', u) == NodeOf(s, u);
    assert s.queue == [t] + s'.queue;
    NoDupSplit([t], s'.queue);
    assert t in [t];
    forall u | u in s'.threads && Queued(s'.threads[u]) ensures u in s'.queue {
      assert u != t && u in s.queue;
    }
    forall u | u in s'.queue ensures Queued(PcOf(s', u)) {
      assert u in s.queue;
    }
  }

  lemma SignalOrder(s: State, t: Id)
    requires OrderInv(s) && Enabled(s, Signal(t)) && |s.queue| > 1 && s.queue[0] == t && s.queue[1] != t
    requires PcOf(s, s.queue[1]).Spinning?
    ensures OrderInv(DoSignal(s, t))
  {
    var s' := DoSignal(s, t);
    var m := |s.arrivals| - |s.queue|;
    assert s.arrivals[m..][0] == s.arrivals[m] == t;
    assert s.arrivals[..m] + [t] == s.arrivals[..m + 1];
    assert s'.queue == s.arrivals[m + 1..];
    assert PcOf(s', s'.queue[0]) == PcOf(s, s.queue[1]);
  }

  lemma SignalNodes(s: State, t: Id)
    requires NodesInv(s) && Enabled(s, Signal(t)) && t in s.queue
    requires forall u :: u in s.threads && s.threads[u].Constructed? ==> s.threads[u].node != s.threads[t].succ
    ensures NodesInv(DoSignal(s, t))
  {
  }

  lemma SignalKeeps(s: State, t: Id)
    requires Inv(s) && Enabled(s, Signal(t))
    ensures Inv(DoSignal(s, t))
  {
    Successor(s, t);
    var v := s.queue[1];
    assert v in s.queue;
    forall u | u in s.threads && s.threads[u].Constructed? ensures s.threads[u].node != s.threads[t].succ {
      NodeLive(s, v);
      NodesApart(s, v, u);
    }
    SignalNodes(s, t);
    SignalLinks(s, t);
    SignalQueue(s, t);
    SignalOrder(s, t);
  }

  lemma SpinKeeps(s: State, t: Id)
    requires Inv(s) && Enabled(s, Spin(t))
    ensures Inv(DoSpin(s, t))
  {
    if !s.nodes[s.threads[t].node].notChanged {
      OthersSpin(s, t);
      HeadMoves(s, t, Critical(s.threads[t].node), s.grants + [t]);
    }
  }

  lemma ReleaseKeeps(s: State, t: Id, e: Event)
    requires Inv(s) && Enabled(s, e) && (e == Poll(t) || e == LoadNext(t))
    ensures Inv(Perform(s, e))
  {
    OthersSpin(s, t);
    var node := s.threads[t].node;
    if e == LoadNext(t) {
      HeadMoves(s, t, Signalling(node, s.nodes[node].next), s.grants);
    } else if s.nodes[node].next != NULL {
      HeadMoves(s, t, Loading(node), s.grants);
    }
  }

  lemma StepKeepsInv(s: State, e: Event, s': State)
    requires Inv(s) && Step(s, e, s')
    ensures Inv(s')
  {
    match e
    case Construct(t, node) => ConstructKeeps(s, t, node);
    case Exchange(t) => ExchangeKeeps(s, t);
    case Link(t) => LinkKeeps(s, t);
    case Spin(t) => SpinKeeps(s, t);
    case TryClose(t) =>
      if s.end == s.threads[t].node { CloseKeeps(s, t); } else { KeepWaitingKeeps(s, t); }
    case Poll(t) => ReleaseKeeps(s, t, e);
    case LoadNext(t) => ReleaseKeeps(s, t, e);
    case Signal(t) => SignalKeeps(s, t);
    case Destroy(t) => DestroyKeeps(s, t);
  }

  lemma InitHolds(s: State)
    requires Init(s)
    ensures Inv(s)
  {
  }

  lemma RunsKeepInv(states: seq<State>, events: seq<Event>)
    requires Runs.IsRun(Init, Step, states, events)
    ensures forall i :: 0 <= i < |states| ==> Inv(states[i])
  {
    forall s | Init(s) ensures Inv(s) { InitHolds(s); }
    forall s, e, s' | Inv(s) && Step(s, e, s') ensures Inv(s') { StepKeepsInv(s, e, s'); }
    Runs.Invariance(Init, Step, Inv, states, events);
  }

  // ----- what the lock promises

  lemma AloneInside(s: State, t: Id)
    requires Inv(s) && t in s.threads && s.threads[t].Critical?
    ensures forall u :: u in s.threads && u != t ==> !s.threads[u].Critical?
  {
    OthersSpin(s, t);
    forall u | u in s.threads && s.threads[u].Critical? ensures u == t {
      OthersSpin(s, u);
    }
  }

  /** At most one thread is in the critical section. */
  lemma MutualExclusion(states: seq<State>, events: seq<Event>, i: nat, t: Id, u: Id)
    requires Runs.IsRun(Init, Step, states, events) && i < |states|
    requires t in states[i].threads && states[i].threads[t].Critical?
    requires u in states[i].threads && states[i].threads[u].Critical?
    ensures t == u
  {
    RunsKeepInv(states, events);
    AloneInside(states[i], t);
  }

  /** Threads enter the critical section in the order of their exchanges, nobody skipped. */
  lemma FirstComeFirstServed(states: seq<State>, events: seq<Event>, i: nat)
    requires Runs.IsRun(Init, Step, states, events) && i < |states|
    ensures states[i].grants <= states[i].arrivals
  {
    RunsKeepInv(states, events);
    var s := states[i];
    var k := |s.arrivals| - |s.queue|;
    assert s.arrivals == s.arrivals[..k] + s.queue;
  }

  /** No step ever touches a node whose guard is gone, not even in the window where a successor has exchanged but
      not yet linked itself. */
  lemma NoDanglingAccess(states: seq<State>, events: seq<Event>, i: nat, t: Id)
    requires Runs.IsRun(Init, Step, states, events) && i < |states| && t in states[i].threads
    ensures var s := states[i];
            && (!s.threads[t].Idle? ==> s.threads[t].node in s.nodes)
            && (s.threads[t].Linking? ==> s.threads[t].prev in s.nodes)
            && (s.threads[t].Signalling? ==> s.threads[t].succ in s.nodes)
  {
    RunsKeepInv(states, events);
    var s := states[i];
    if s.threads[t].Linking? {
      var j := Predecessor(s, t);
      assert s.queue[j - 1] in s.queue;
      NodeLive(s, s.queue[j - 1]);
    } else if s.threads[t].Signalling? {
      Successor(s, t);
      assert s.queue[1] in s.queue;
      NodeLive(s, s.queue[1]);
    }
  }

  /** The lock is never lost: while anybody is queued, the head can move, or is waiting only for its successor to
      finish linking, which it can. */
  lemma NeverStuck(states: seq<State>, events: seq<Event>, i: nat)
    requires Runs.IsRun(Init, Step, states, events) && i < |states| && states[i].queue != []
    ensures var s := states[i];
            var head := s.queue[0];
            || (exists e :: Enabled(s, e) && e.t == head && Perform(s, e) != s)
            || (|s.queue| > 1 && Enabled(s, Link(s.queue[1])))
  {
    RunsKeepInv(states, events);
    var s := states[i];
    var head := s.queue[0];
    assert head in s.queue && HeadOk(s, head);
    NodeLive(s, head);
    var e := match PcOf(s, head)
      case Spinning(_) => Spin(head)
      case Critical(_) => TryClose(head)
      case Polling(_) => Poll(head)
      case Loading(_) => LoadNext(head)
      case _ => Signal(head);
    if s.threads[head].Signalling? {
      Successor(s, head);
      assert s.queue[1] in s.queue;
      NodeLive(s, s.queue[1]);
    }
    assert Enabled(s, e);
    if s.threads[head].Polling? && Mem(s, NodeOf(s, head)).next == NULL {
      assert LinkOk(s, s.queue[0], s.queue[1]);
      assert s.queue[1] in s.queue;
    } else {
      assert Perform(s, e).threads[head] != s.threads[head];
    }
  }

  // ----- what complete calls do

  /** In its own code: outside, or in the critical section. */
  predicate InOwnCode(pc: Pc) {
    pc.Idle? || pc.Critical?
  }

  /** Thread t is inside a call during this whole stretch, and back in its own code at the end of it. */
  ghost predicate Inside(states: seq<State>, t: Id, first: nat, last: nat) {
    && first < last < |states| && InOwnCode(PcOf(states[last], t))
    && forall k :: first <= k < last ==> !InOwnCode(PcOf(states[k], t))
  }

  /** Inside lock(). */
  predicate Arriving(pc: Pc, node: Addr) {
    (pc.Constructed? || pc.Linking? || pc.Spinning?) && pc.node == node
  }

  /** Inside unlock(). */
  predicate Departing(pc: Pc, node: Addr) {
    (pc.Polling? || pc.Loading? || pc.Signalling? || pc.Leaving?) && pc.node == node
  }

  lemma CallStep(s: State, e: Event, t: Id, node: Addr)
    requires Enabled(s, e)
    ensures var s' := Perform(s, e);
            && (Arriving(PcOf(s, t), node) ==> Arriving(PcOf(s', t), node) || PcOf(s', t) == Critical(node))
            && (Departing(PcOf(s, t), node) ==>
                  Departing(PcOf(s', t), node) || (PcOf(s', t).Idle? && node !in s'.nodes))
  {
  }

  lemma {:induction false} CallEnds(states: seq<State>, events: seq<Event>, i: nat, j: nat, t: Id, node: Addr)
    requires Runs.IsRun(Init, Step, states, events) && Inside(states, t, i, j)
    ensures Arriving(PcOf(states[i], t), node) ==> PcOf(states[j], t) == Critical(node)
    ensures Departing(PcOf(states[i], t), node) ==> PcOf(states[j], t).Idle? && node !in states[j].nodes
    decreases j - i
  {
    assert Step(states[i], events[i], states[i + 1]);
    CallStep(states[i], events[i], t, node);
    if i + 1 < j {
      CallEnds(states, events, i + 1, j, t, node);
    }
  }

  /** A lock() that returns does so in the critical section, with the guard it was called with. */
  lemma LockEndsInside(states: seq<State>, events: seq<Event>, i: nat, j: nat, t: Id, node: Addr)
    requires Runs.IsRun(Init, Step, states, events) && i < |events| && events[i] == Construct(t, node)
    requires Histories.Returns((s: State) => InOwnCode(PcOf(s, t)), states, i, j)
    ensures PcOf(states[j], t) == Critical(node)
  {
    assert Step(states[i], events[i], states[i + 1]);
    CallEnds(states, events, i + 1, j, t, node);
  }

  lemma {:induction false} SignalsFirst(states: seq<State>, events: seq<Event>, i: nat, j: nat, t: Id) returns (k: nat)
    requires Runs.IsRun(Init, Step, states, events) && Inside(states, t, i, j)
    requires var pc := PcOf(states[i], t); pc.Polling? || pc.Loading? || pc.Signalling?
    ensures i <= k < j && events[k] == Signal(t)
    decreases j - i
  {
    assert Step(states[i], events[i], states[i + 1]);
    if events[i] == Signal(t) {
      k := i;
    } else {
      k := SignalsFirst(states, events, i + 1, j, t);
    }
  }

  /** An unlock() that returns does so outside, with its guard gone. If nobody had exchanged after it, the lock is free
      at once; otherwise it lets in the thread that had exchanged next. */
  lemma UnlockEndsOutside(states: seq<State>, events: seq<Event>, i: nat, j: nat, t: Id)
    requires Runs.IsRun(Init, Step, states, events) && i < |events| && events[i] == TryClose(t)
    requires Histories.Returns((s: State) => InOwnCode(PcOf(s, t)), states, i, j)
    ensures PcOf(states[j], t).Idle? && NodeOf(states[i], t) !in states[j].nodes
    ensures states[i].queue == [t] ==> states[i + 1].queue == [] && states[i + 1].end == NULL
    ensures states[i].queue != [t] ==>
              exists k :: i < k < j && events[k] == Signal(t) && HandsOver(states[k], t, states[k + 1])
  {
    RunsKeepInv(states, events);
    var s := states[i];
    assert Step(s, events[i], states[i + 1]);
    OnlyOne(s, t);
    CallEnds(states, events, i + 1, j, t, NodeOf(s, t));
    if s.queue != [t] {
      var k := SignalsFirst(states, events, i + 1, j, t);
      assert Step(states[k], events[k], states[k + 1]);
      SignalLetsIn(states[k], t);
      assert HandsOver(states[k], t, states[k + 1]);
    }
  }

  /** The lock passes from t to whoever exchanged right after it, and to nobody else. */
  ghost predicate HandsOver(s: State, t: Id, s': State) {
    && s.queue == [t] + s'.queue && s'.queue != [] && LetIn(s', s'.queue[0])
    && forall u :: u in s'.queue[1..] ==> !LetIn(s', u)
  }

  /** Waiting for somebody else: for its predecessor to let it in, or for its successor to link itself. */
  ghost predicate Waits(s: State, t: Id) {
    || (PcOf(s, t).Spinning? && Mem(s, NodeOf(s, t)).notChanged)
    || (PcOf(s, t).Polling? && Mem(s, NodeOf(s, t)).next == NULL)
  }

  /** What thread t does next, with a new guard at `node` if it is outside. */
  function NextEvent(pc: Pc, t: Id, node: Addr): Event {
    match pc
    case Idle => Construct(t, node)
    case Constructed(_) => Exchange(t)
    case Linking(_, _) => Link(t)
    case Spinning(_) => Spin(t)
    case Critical(_) => TryClose(t)
    case Polling(_) => Poll(t)
    case Loading(_) => LoadNext(t)
    case Signalling(_, _) => Signal(t)
    case Leaving(_) => Destroy(t)
  }

  /** Whoever is not waiting for somebody else can take its next step, and that step gets it on. */
  lemma EveryoneElseGetsOn(states: seq<State>, events: seq<Event>, i: nat, t: Id, node: Addr)
    requires Runs.IsRun(Init, Step, states, events) && i < |states|
    requires t in states[i].threads && node != NULL && node !in states[i].nodes && !Waits(states[i], t)
    ensures var e := NextEvent(states[i].threads[t], t, node);
            Enabled(states[i], e) && PcOf(Perform(states[i], e), t) != PcOf(states[i], t)
  {
    RunsKeepInv(states, events);
    NoDanglingAccess(states, events, i, t);
    assert states[i].threads[t].Signalling? ==> t in states[i].queue;
  }
}
