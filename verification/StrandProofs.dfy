/** The strand keeps its invariants in every interleaving, and what that promises. */
module StrandProofs {
  import opened Lists
  import opened Counting
  import opened StrandModel
  import Runs

  // ----- tokens

  lemma TokenStep(s: State, e: Event)
    requires TokenInv(s) && Enabled(s, e)
    ensures TokenInv(Perform(s, e))
  {
    var s' := Perform(s, e);
    var t := e.t;
    assert s'.threads == s.threads[t := s'.threads[t]];
    CountMove(s.threads, t, s'.threads[t], HoldsToken);
    if HoldsToken(s.threads[t]) {
      CountSome(s.threads, t, HoldsToken);
    }
  }

  lemma OneHolder(s: State, t: Id, u: Id)
    requires TokenInv(s) && t in s.threads && u in s.threads && t != u
    ensures !(HoldsToken(s.threads[t]) && HoldsToken(s.threads[u]))
  {
    if HoldsToken(s.threads[t]) && HoldsToken(s.threads[u]) {
      CountTwo(s.threads, t, u, HoldsToken);
    }
  }

  lemma HolderTakesAll(s: State, t: Id)
    requires TokenInv(s) && t in s.threads && HoldsToken(s.threads[t])
    ensures !s.flag && s.queued == 0
    ensures forall u :: u in s.threads && u != t ==> !HoldsToken(s.threads[u])
  {
    CountSome(s.threads, t, HoldsToken);
    forall u | u in s.threads && u != t ensures !HoldsToken(s.threads[u]) {
      OneHolder(s, t, u);
    }
  }

  // ----- no lost schedule

  lemma ScheduleStep(s: State, e: Event)
    requires ScheduleInv(s) && Enabled(s, e)
    ensures ScheduleInv(Perform(s, e))
  {
    var s' := Perform(s, e);
    var t := e.t;
    assert s'.threads == s.threads[t := s'.threads[t]];
    if s'.flag && s'.head != NULL {
      if WillLook(s'.threads[t]) {
        assert t in s'.threads;
      } else {
        assert s.flag && s.head != NULL;
        var u :| u in s.threads && WillLook(s.threads[u]);
        assert u != t;
        assert u in s'.threads && WillLook(s'.threads[u]);
      }
    }
  }

  // ----- chains and lists of tasks under memory updates

  /** A chain only depends on the memory of its own nodes. */
  lemma ChainFrame(heap: map<Addr, Node>, heap': map<Addr, Node>, a: Addr, nodes: seq<Addr>)
    requires Chain(heap, a, nodes)
    requires forall b :: b in nodes ==> b in heap' && (b in heap ==> heap'[b] == heap[b])
    ensures Chain(heap', a, nodes)
  {
    forall i | 0 <= i < |nodes| ensures Link(heap', nodes, i) {
      assert Link(heap, nodes, i) && nodes[i] in nodes;
    }
  }

  lemma ChainCons(heap: map<Addr, Node>, a: Addr, nodes: seq<Addr>)
    requires a != NULL && a in heap && Chain(heap, heap[a].prev, nodes)
    ensures Chain(heap, a, [a] + nodes)
  {
    var all := [a] + nodes;
    forall i | 0 <= i < |all| ensures Link(heap, all, i) {
      assert i > 0 ==> Link(heap, nodes, i - 1);
    }
  }

  lemma ChainTail(heap: map<Addr, Node>, a: Addr, nodes: seq<Addr>)
    requires Chain(heap, a, nodes) && nodes != []
    ensures a == nodes[0] && a != NULL && a in heap && Chain(heap, heap[a].prev, nodes[1..])
  {
    var rest := nodes[1..];
    assert Link(heap, nodes, 0);
    forall i | 0 <= i < |rest| ensures Link(heap, rest, i) {
      assert Link(heap, nodes, i + 1);
    }
  }

  lemma ChainLive(heap: map<Addr, Node>, a: Addr, nodes: seq<Addr>)
    requires Chain(heap, a, nodes)
    ensures AllIn(heap, nodes) && forall b :: b in nodes ==> b in heap
  {
    forall i | 0 <= i < |nodes| ensures nodes[i] in heap {
      assert Link(heap, nodes, i);
    }
  }

  lemma ChainEnds(heap: map<Addr, Node>, a: Addr, nodes: seq<Addr>)
    requires Chain(heap, a, nodes)
    ensures a == NULL <==> nodes == []
  {
    if nodes != [] {
      assert Link(heap, nodes, 0);
    }
  }

  lemma TasksFrame(heap: map<Addr, Node>, heap': map<Addr, Node>, nodes: seq<Addr>)
    requires AllIn(heap, nodes)
    requires forall i :: 0 <= i < |nodes| ==> nodes[i] in heap' && heap'[nodes[i]].task == heap[nodes[i]].task
    ensures AllIn(heap', nodes) && Tasks(heap', nodes) == Tasks(heap, nodes)
  {
  }

  lemma ReversedMembers<T>(s: seq<T>, x: T)
    ensures x in Reversed(s) <==> x in s
  {
    if x in s {
      var i :| 0 <= i < |s| && s[i] == x;
      assert Reversed(s)[|s| - 1 - i] == x;
    }
  }

  lemma ReversedNoDup<T>(s: seq<T>)
    requires NoDup(s)
    ensures NoDup(Reversed(s))
  {
    var r := Reversed(s);
    forall i, j | 0 <= i < j < |r| ensures r[i] != r[j] {
      assert r[i] == s[|s| - 1 - i] && r[j] == s[|s| - 1 - j];
    }
  }


  /** What a thread may touch depends only on its point and on the batch. */
  lemma OwnsSame(s: State, s': State, pc: Pc, a: Addr)
    requires s'.batch == s.batch
    ensures Owns(s', pc, a) <==> Owns(s, pc, a)
  {
  }

  lemma PointersSame(s: State, s': State, pc: Pc)
    requires s'.heap == s.heap && s'.batch == s.batch && s'.turned == s.turned
    ensures PointersOk(s', pc) <==> PointersOk(s, pc)
  {
  }

  /** A thread has moved to a point that touches the same nodes as before. */
  ghost predicate MovesOnly(s: State, s': State, t: Id) {
    && t in s.threads && t in s'.threads && s'.threads == s.threads[t := s'.threads[t]]
    && s' == s.(threads := s'.threads, flag := s'.flag, queued := s'.queued)
    && PointersOk(s, s'.threads[t])
    && (InBatch(s.threads[t]) ==> InBatch(s'.threads[t]) || s.batch == [])
    && forall a :: Owns(s, s'.threads[t], a) <==> Owns(s, s.threads[t], a)
  }

  lemma MoveOwner(s: State, s': State, t: Id)
    requires OwnerInv(s) && MovesOnly(s, s', t)
    ensures OwnerInv(s')
  {
    forall u, a | u in s'.threads ensures Owns(s', s'.threads[u], a) <==> Owns(s, s.threads[u], a) {
      OwnsSame(s, s', s'.threads[u], a);
    }
  }

  lemma MoveShape(s: State, s': State, t: Id)
    requires ShapeInv(s) && MovesOnly(s, s', t)
    ensures ShapeInv(s')
  {
    if s.batch != [] {
      var u :| u in s.threads && InBatch(s.threads[u]);
      assert u in s'.threads && InBatch(s'.threads[u]);
    }
    forall u | u in s'.threads ensures PointersOk(s', s'.threads[u]) {
      assert u != t ==> PointersOk(s, s.threads[u]);
      PointersSame(s, s', s'.threads[u]);
    }
  }

  lemma GoKeeps(s: State, t: Id, pc: Pc, flag: bool, queued: nat)
    requires OwnerInv(s) && ShapeInv(s) && OrderInv(s) && t in s.threads && PointersOk(s, pc)
    requires InBatch(s.threads[t]) ==> InBatch(pc) || s.batch == []
    requires forall a :: Owns(s, pc, a) <==> Owns(s, s.threads[t], a)
    ensures var s' := Go(s, t, pc).(flag := flag, queued := queued); OwnerInv(s') && ShapeInv(s') && OrderInv(s')
  {
    var s' := Go(s, t, pc).(flag := flag, queued := queued);
    MoveOwner(s, s', t);
    MoveShape(s, s', t);
  }

  /** Events that move a thread without touching memory, stack or batch. */
  ghost predicate Quiet(e: Event) {
    || e.TestFlag? || e.Schedule? || e.Start? || e.SetFlag? || e.Recheck? || e.Reclaim? || e.ReverseDone?
    || e.BeginTask? || e.DrainDone?
  }

  lemma QuietIsGo(s: State, e: Event)
    requires Enabled(s, e) && Quiet(e)
    ensures var s' := Perform(s, e); s' == Go(s, e.t, s'.threads[e.t]).(flag := s'.flag, queued := s'.queued)
  {
  }

  lemma QuietChains(s: State, e: Event)
    requires ShapeInv(s) && Enabled(s, e) && Quiet(e)
    ensures PointersOk(s, Perform(s, e).threads[e.t])
    ensures e.DrainDone? ==> s.batch == []
  {
    var pc := s.threads[e.t];
    assert PointersOk(s, pc);
    if e.ReverseDone? {
      ChainEnds(s.heap, pc.prev, Rest(s));
      assert Done(s) == s.batch;
    } else if e.BeginTask? || e.DrainDone? {
      ChainEnds(s.heap, pc.stolen, s.batch);
    }
  }

  lemma QuietPointers(s: State, e: Event)
    requires ShapeInv(s) && Enabled(s, e) && Quiet(e)
    ensures var pc := Perform(s, e).threads[e.t];
            && PointersOk(s, pc)
            && (InBatch(s.threads[e.t]) ==> InBatch(pc) || s.batch == [])
            && (forall a :: Owns(s, pc, a) <==> Owns(s, s.threads[e.t], a))
  {
    QuietChains(s, e);
  }

  lemma QuietKeeps(s: State, e: Event)
    requires OwnerInv(s) && ShapeInv(s) && OrderInv(s) && Enabled(s, e) && Quiet(e)
    ensures OwnerInv(Perform(s, e)) && ShapeInv(Perform(s, e)) && OrderInv(Perform(s, e))
  {
    var s' := Perform(s, e);
    QuietIsGo(s, e);
    QuietPointers(s, e);
    GoKeeps(s, e.t, s'.threads[e.t], s'.flag, s'.queued);
  }

  // ----- the pushers' steps

  /** Every other thread's nodes are untouched by a step on nodes this thread owns. */
  lemma OthersKeep(s: State, s': State, t: Id, u: Id)
    requires OwnerInv(s) && t in s.threads && u in s.threads && u != t && PointersOk(s, s.threads[u])
    requires s'.batch == s.batch && s'.turned == s.turned
    requires forall a :: a in s.heap && s.owner[a] != By(t) && s.owner[a] != OnStack ==> a in s'.heap && s'.heap[a] == s.heap[a]
    ensures PointersOk(s', s.threads[u])
  {
    var pc := s.threads[u];
    assert forall a :: Owns(s, pc, a) ==> a in s'.heap && s'.heap[a] == s.heap[a];
    match pc
    case Linked(node, expected) => assert Owns(s, pc, node);
    case Reversing(cur, prev) =>
      forall a | a in Done(s) || a in Rest(s) ensures Owns(s, pc, a) {
        ReversedMembers(s.batch[..|s.batch| - s.turned], a);
      }
      ChainFrame(s.heap, s'.heap, cur, Done(s));
      ChainFrame(s.heap, s'.heap, prev, Rest(s));
    case Draining(stolen) => ChainFrame(s.heap, s'.heap, stolen, s.batch);
    case Executing(stolen) => ChainFrame(s.heap, s'.heap, stolen, s.batch);
    case Freeing(stolen) =>
      assert Owns(s, pc, stolen);
      forall a | a in [stolen] + s.batch ensures Owns(s, pc, a) { }
      ChainFrame(s.heap, s'.heap, stolen, [stolen] + s.batch);
    case _ =>
  }

  lemma PushersFrame(s: State, s': State, t: Id)
    requires OwnerInv(s) && ShapeInv(s) && t in s.threads
    requires s'.batch == s.batch && s'.turned == s.turned && t in s'.threads && s'.threads == s.threads[t := s'.threads[t]]
    requires forall a :: a in s.heap && s.owner[a] != By(t) && s.owner[a] != OnStack ==> a in s'.heap && s'.heap[a] == s.heap[a]
    requires PointersOk(s', s'.threads[t]) && !InBatch(s.threads[t]) && !InBatch(s'.threads[t])
    requires AllIn(s'.heap, s.batch)
    requires Chain(s'.heap, s'.head, s'.stack) && NoDup(s'.stack)
    ensures ShapeInv(s')
  {
    if s.batch != [] {
      var u :| u in s.threads && InBatch(s.threads[u]);
      assert u in s'.threads && InBatch(s'.threads[u]);
    }
    forall u | u in s'.threads ensures PointersOk(s', s'.threads[u]) {
      if u != t {
        assert PointersOk(s, s.threads[u]);
        OthersKeep(s, s', t, u);
      }
    }
  }

  lemma CreateKeeps(s: State, t: Id, node: Addr, task: Task)
    requires OwnerInv(s) && ShapeInv(s) && OrderInv(s) && CanCreate(s, t, node)
    ensures var s' := DoCreate(s, t, node, task); OwnerInv(s') && ShapeInv(s') && OrderInv(s')
  {
    var s' := DoCreate(s, t, node, task);
    ChainLive(s.heap, s.head, s.stack);
    ChainFrame(s.heap, s'.heap, s.head, s.stack);
    PushersFrame(s, s', t);
    TasksFrame(s.heap, s'.heap, s.batch);
    TasksFrame(s.heap, s'.heap, Reversed(s.stack));
    CreateOwner(s, t, node, task);
  }

  lemma CreateOwner(s: State, t: Id, node: Addr, task: Task)
    requires OwnerInv(s) && CanCreate(s, t, node)
    ensures OwnerInv(DoCreate(s, t, node, task))
  {
  }

  lemma LoadHeadOrder(s: State, t: Id)
    requires OwnerInv(s) && ShapeInv(s) && OrderInv(s) && CanLoadHead(s, t)
    ensures OrderInv(DoLoadHead(s, t))
  {
    TasksFrame(s.heap, DoLoadHead(s, t).heap, s.batch);
    TasksFrame(s.heap, DoLoadHead(s, t).heap, Reversed(s.stack));
  }

  lemma LoadHeadShape(s: State, t: Id)
    requires OwnerInv(s) && ShapeInv(s) && CanLoadHead(s, t)
    ensures ShapeInv(DoLoadHead(s, t))
  {
    var s' := DoLoadHead(s, t);
    var node := s.threads[t].node;
    assert Owns(s, s.threads[t], node);
    ChainFrame(s.heap, s'.heap, s.head, s.stack);
    PushersFrame(s, s', t);
  }

  lemma LoadHeadKeeps(s: State, t: Id)
    requires OwnerInv(s) && ShapeInv(s) && OrderInv(s) && CanLoadHead(s, t)
    ensures var s' := DoLoadHead(s, t); OwnerInv(s') && ShapeInv(s') && OrderInv(s')
  {
    LoadHeadShape(s, t);
    LoadHeadOrder(s, t);
    LoadHeadOwner(s, t);
  }

  lemma LoadHeadOwner(s: State, t: Id)
    requires OwnerInv(s) && CanLoadHead(s, t)
    ensures OwnerInv(DoLoadHead(s, t))
  {
    var s' := DoLoadHead(s, t);
    forall u, a | u in s'.threads ensures Owns(s', s'.threads[u], a) <==> Owns(s, s.threads[u], a) { }
  }

  lemma RetryKeeps(s: State, t: Id)
    requires OwnerInv(s) && ShapeInv(s) && OrderInv(s) && CanPush(s, t)
    ensures var s' := Go(s, t, Created(s.threads[t].node)); OwnerInv(s') && ShapeInv(s') && OrderInv(s')
  {
    var s' := Go(s, t, Created(s.threads[t].node));
    RetryMoves(s, t);
    MoveOwner(s, s', t);
    MoveShape(s, s', t);
  }

  lemma RetryMoves(s: State, t: Id)
    requires CanPush(s, t)
    ensures MovesOnly(s, Go(s, t, Created(s.threads[t].node)), t)
  {
  }

  /** A successful compare-exchange puts the node on top, whether or not the address it expected was freed and
      reused since it was read: what it points to is the current top. */
  lemma PushKeeps(s: State, t: Id)
    requires OwnerInv(s) && ShapeInv(s) && OrderInv(s) && CanPush(s, t) && s.head == s.threads[t].expected
    ensures var s' := DoPush(s, t); OwnerInv(s') && ShapeInv(s') && OrderInv(s')
  {
    var s' := DoPush(s, t);
    var node := s.threads[t].node;
    assert PointersOk(s, s.threads[t]);
    assert Owns(s, s.threads[t], node);
    ChainCons(s.heap, node, s.stack);
    PushersFrame(s, s', t);
    PushOwner(s, t);
    PushOrder(s, t);
  }

  lemma PushOwner(s: State, t: Id)
    requires OwnerInv(s) && CanPush(s, t) && s.head == s.threads[t].expected
    ensures OwnerInv(DoPush(s, t))
  {
    var s' := DoPush(s, t);
    var node := s.threads[t].node;
    assert Owns(s, s.threads[t], node);
    assert forall a :: a in s'.stack <==> a == node || a in s.stack;
    forall u, a | u in s'.threads && Owns(s', s'.threads[u], a) ensures a in s'.owner && s'.owner[a] == By(u) {
      assert Owns(s, s.threads[u], a);
    }
    forall a | a in s'.owner && s'.owner[a] != OnStack
      ensures s'.owner[a].thread in s'.threads && Owns(s', s'.threads[s'.owner[a].thread], a)
    {
      assert a != node && s'.owner[a] == s.owner[a];
      assert s.owner[a].thread == t ==> a == node;
    }
  }

  lemma PushOrder(s: State, t: Id)
    requires OrderInv(s) && CanPush(s, t) && s.head == s.threads[t].expected
    ensures OrderInv(DoPush(s, t))
  {
    var node := s.threads[t].node;
    var stack' := [node] + s.stack;
    assert Reversed(stack') == Reversed(s.stack) + [node];
    assert Tasks(s.heap, Reversed(stack')) == Tasks(s.heap, Reversed(s.stack)) + [s.heap[node].task];
  }

  // ----- the batch holder's steps

  /** No other thread has a batch while t holds the token. */
  lemma Alone(s: State, t: Id)
    requires TokenInv(s) && t in s.threads && HoldsToken(s.threads[t])
    ensures forall u :: u in s.threads && u != t ==> !InBatch(s.threads[u])
  {
    HolderTakesAll(s, t);
  }

  /** A step of the batch holder that touches only nodes it owns or the stack it takes. */
  lemma HolderFrame(s: State, s': State, t: Id)
    requires TokenInv(s) && OwnerInv(s) && ShapeInv(s) && t in s.threads && HoldsToken(s.threads[t])
    requires t in s'.threads && s'.threads == s.threads[t := s'.threads[t]]
    requires forall a :: a in s.heap && s.owner[a] != By(t) && s.owner[a] != OnStack ==> a in s'.heap && s'.heap[a] == s.heap[a]
    requires PointersOk(s', s'.threads[t]) && InBatch(s'.threads[t])
    requires AllIn(s'.heap, s'.batch) && NoDup(s'.batch)
    requires Chain(s'.heap, s'.head, s'.stack) && NoDup(s'.stack)
    ensures ShapeInv(s')
  {
    Alone(s, t);
    assert InBatch(s'.threads[t]);
    forall u | u in s'.threads ensures PointersOk(s', s'.threads[u]) {
      if u != t {
        OtherPointers(s, s', t, u);
      }
    }
  }

  /** A thread that does not hold the batch looks at its own node only. */
  lemma OtherPointers(s: State, s': State, t: Id, u: Id)
    requires OwnerInv(s) && u in s.threads && u != t && !InBatch(s.threads[u]) && PointersOk(s, s.threads[u])
    requires forall a :: a in s.heap && s.owner[a] != By(t) && s.owner[a] != OnStack ==> a in s'.heap && s'.heap[a] == s.heap[a]
    ensures PointersOk(s', s.threads[u])
  {
    if s.threads[u].Linked? {
      assert Owns(s, s.threads[u], s.threads[u].node);
    }
  }

  lemma NoBatchBeforeSteal(s: State, t: Id)
    requires TokenInv(s) && ShapeInv(s) && At(s, t, Stealing)
    ensures s.batch == []
  {
    Alone(s, t);
  }

  /** Nothing of the stolen list is turned around yet. */
  lemma StealPointers(s: State, t: Id)
    requires ShapeInv(s) && At(s, t, Stealing) && s.head != NULL
    ensures var s' := DoSteal(s, t);
            t in s'.threads && PointersOk(s', s'.threads[t]) && AllIn(s'.heap, s'.batch) && NoDup(s'.batch)
            && Chain(s'.heap, s'.head, s'.stack)
  {
    var s' := DoSteal(s, t);
    ReversedNoDup(s.stack);
    ChainLive(s.heap, s.head, s.stack);
    assert Done(s') == [] && Rest(s') == s.stack;
  }

  lemma StealShape(s: State, t: Id)
    requires TokenInv(s) && OwnerInv(s) && ShapeInv(s) && At(s, t, Stealing) && s.head != NULL
    ensures ShapeInv(DoSteal(s, t))
  {
    StealPointers(s, t);
    HolderFrame(s, DoSteal(s, t), t);
  }

  lemma StealOrder(s: State, t: Id)
    requires ShapeInv(s) && OrderInv(s) && At(s, t, Stealing) && s.head != NULL && s.batch == []
    ensures OrderInv(DoSteal(s, t))
  {
    StealPointers(s, t);
    assert Tasks(s.heap, []) == [];
    assert Reversed<Addr>([]) == [];
  }

  lemma StealKeeps(s: State, t: Id)
    requires TokenInv(s) && OwnerInv(s) && ShapeInv(s) && OrderInv(s) && At(s, t, Stealing) && s.head != NULL
    ensures var s' := DoSteal(s, t); OwnerInv(s') && ShapeInv(s') && OrderInv(s')
  {
    NoBatchBeforeSteal(s, t);
    StealShape(s, t);
    StealOrder(s, t);
    StealOwner(s, t);
  }

  lemma StealTakesAll(s: State, t: Id)
    requires ShapeInv(s) && At(s, t, Stealing)
    ensures DoSteal(s, t).head == NULL && DoSteal(s, t).stack == []
  {
    ChainEnds(s.heap, s.head, s.stack);
  }

  lemma StealOwns(s: State, t: Id, u: Id, a: Addr)
    requires TokenInv(s) && OwnerInv(s) && At(s, t, Stealing) && s.head != NULL && s.batch == []
    requires u in s.threads && u != t
    ensures Owns(DoSteal(s, t), DoSteal(s, t).threads[u], a) <==> Owns(s, s.threads[u], a)
    ensures !Owns(s, s.threads[t], a)
  {
    Alone(s, t);
  }

  lemma StealOwners(s: State, t: Id)
    requires TokenInv(s) && OwnerInv(s) && At(s, t, Stealing) && s.head != NULL && s.batch == []
    ensures var s' := DoSteal(s, t);
            && (forall a :: a in s'.batch <==> a in s.stack)
            && (forall u, a :: u in s'.threads && Owns(s', s'.threads[u], a) ==> a in s'.owner && s'.owner[a] == By(u))
  {
    var s' := DoSteal(s, t);
    forall a ensures a in s'.batch <==> a in s.stack { ReversedMembers(s.stack, a); }
    forall u, a | u in s'.threads && Owns(s', s'.threads[u], a) ensures a in s'.owner && s'.owner[a] == By(u) {
      if u != t {
        StealOwns(s, t, u, a);
      }
    }
  }

  lemma StealOwned(s: State, t: Id, a: Addr)
    requires TokenInv(s) && OwnerInv(s) && At(s, t, Stealing) && s.head != NULL && s.batch == []
    requires a in s.owner && s.owner[a] != OnStack
    ensures var u := s.owner[a].thread; u in s.threads && u != t && Owns(DoSteal(s, t), DoSteal(s, t).threads[u], a)
  {
    var u := s.owner[a].thread;
    assert Owns(s, s.threads[u], a);
    assert u != t;
    StealOwns(s, t, u, a);
  }

  lemma StealBooks(s: State, t: Id)
    requires OwnerInv(s) && At(s, t, Stealing) && s.head != NULL
    ensures var s' := DoSteal(s, t);
            && s'.owner.Keys == s'.heap.Keys && NULL !in s'.heap
            && forall a :: a in s'.owner ==> s'.owner[a] == (if s.owner[a] == OnStack then By(t) else s.owner[a])
  {
  }

  lemma StealHeld(s: State, t: Id, a: Addr)
    requires TokenInv(s) && OwnerInv(s) && At(s, t, Stealing) && s.head != NULL && s.batch == [] && a in s.owner
    ensures var s' := DoSteal(s, t);
            a in s'.owner && s'.owner[a] != OnStack && s'.owner[a].thread in s'.threads
            && Owns(s', s'.threads[s'.owner[a].thread], a)
  {
    if s.owner[a] == OnStack {
      ReversedMembers(s.stack, a);
    } else {
      StealOwned(s, t, a);
    }
  }

  lemma StealOwner(s: State, t: Id)
    requires TokenInv(s) && OwnerInv(s) && At(s, t, Stealing) && s.head != NULL && s.batch == []
    ensures OwnerInv(DoSteal(s, t))
  {
    StealBooks(s, t);
    StealOwners(s, t);
    forall a | a in s.owner
      ensures DoSteal(s, t).owner[a].thread in DoSteal(s, t).threads
      ensures Owns(DoSteal(s, t), DoSteal(s, t).threads[DoSteal(s, t).owner[a].thread], a)
    {
      StealHeld(s, t, a);
    }
  }

  lemma StealNothingKeeps(s: State, t: Id)
    requires TokenInv(s) && OwnerInv(s) && ShapeInv(s) && OrderInv(s) && At(s, t, Stealing)
    ensures var s' := Go(s, t, FoundNone); OwnerInv(s') && ShapeInv(s') && OrderInv(s')
  {
    GoKeeps(s, t, FoundNone, s.flag, s.queued);
  }

  /** The first node still to be turned is the newest unturned one, and is nowhere else. */
  lemma RestHead(batch: seq<Addr>, m: nat, rest: seq<Addr>)
    requires 0 < m <= |batch| && NoDup(batch) && rest == Reversed(batch[..m])
    ensures rest[0] == batch[m - 1] && rest[1..] == Reversed(batch[..m - 1])
    ensures rest[0] in batch && rest[0] !in rest[1..] && rest[0] !in batch[m..]
  {
    assert batch == batch[..m] + batch[m..];
    NoDupSplit(batch[..m], batch[m..]);
    assert batch[..m] == batch[..m - 1] + [batch[m - 1]];
    NoDupSplit(batch[..m - 1], [batch[m - 1]]);
    ReversedMembers(batch[..m - 1], batch[m - 1]);
  }

  /** One turn of Reverse moves the head of the remaining chain onto the reversed one. */
  lemma TurnOne(heap: map<Addr, Node>, cur: Addr, prev: Addr, done: seq<Addr>, rest: seq<Addr>)
    requires Chain(heap, cur, done) && Chain(heap, prev, rest) && rest != []
    requires rest[0] !in rest[1..] && rest[0] !in done
    ensures prev == rest[0] && prev in heap && prev != NULL
    ensures var heap' := heap[prev := heap[prev].(prev := cur)];
            Chain(heap', prev, [prev] + done) && Chain(heap', heap[prev].prev, rest[1..])
  {
    ChainTail(heap, prev, rest);
    var heap' := heap[prev := heap[prev].(prev := cur)];
    ChainLive(heap, cur, done);
    ChainLive(heap, heap[prev].prev, rest[1..]);
    ChainFrame(heap, heap', cur, done);
    ChainFrame(heap, heap', heap[prev].prev, rest[1..]);
    ChainCons(heap', prev, done);
  }

  lemma ReversePointers(s: State, t: Id)
    requires ShapeInv(s) && CanReverseOne(s, t)
    ensures PointersOk(DoReverseOne(s, t), DoReverseOne(s, t).threads[t]) && s.threads[t].prev in s.batch
  {
    var pc := s.threads[t];
    assert PointersOk(s, pc);
    ChainEnds(s.heap, pc.prev, Rest(s));
    RestHead(s.batch, |s.batch| - s.turned, Rest(s));
    TurnOne(s.heap, pc.cur, pc.prev, Done(s), Rest(s));
    assert Done(DoReverseOne(s, t)) == [pc.prev] + Done(s);
  }

  lemma ReverseShape(s: State, t: Id)
    requires TokenInv(s) && OwnerInv(s) && ShapeInv(s) && CanReverseOne(s, t)
    ensures ShapeInv(DoReverseOne(s, t))
  {
    var s' := DoReverseOne(s, t);
    var pc := s.threads[t];
    ReversePointers(s, t);
    assert Owns(s, pc, pc.prev);
    ChainFrame(s.heap, s'.heap, s.head, s.stack);
    HolderFrame(s, s', t);
  }

  lemma ReverseOrder(s: State, t: Id)
    requires OwnerInv(s) && ShapeInv(s) && OrderInv(s) && CanReverseOne(s, t)
    ensures OrderInv(DoReverseOne(s, t))
  {
    TasksFrame(s.heap, DoReverseOne(s, t).heap, s.batch);
    TasksFrame(s.heap, DoReverseOne(s, t).heap, Reversed(s.stack));
  }

  lemma ReverseKeeps(s: State, t: Id)
    requires TokenInv(s) && OwnerInv(s) && ShapeInv(s) && OrderInv(s) && CanReverseOne(s, t)
    ensures var s' := DoReverseOne(s, t); OwnerInv(s') && ShapeInv(s') && OrderInv(s')
  {
    ReverseShape(s, t);
    ReverseOrder(s, t);
    ReverseOwner(s, t);
  }

  lemma ReverseOwner(s: State, t: Id)
    requires OwnerInv(s) && CanReverseOne(s, t)
    ensures OwnerInv(DoReverseOne(s, t))
  {
    var s' := DoReverseOne(s, t);
    forall u, a | u in s'.threads ensures Owns(s', s'.threads[u], a) <==> Owns(s, s.threads[u], a) { }
  }

  lemma EndTaskKeeps(s: State, t: Id)
    requires TokenInv(s) && OwnerInv(s) && ShapeInv(s) && OrderInv(s) && CanEndTask(s, t)
    ensures var s' := DoEndTask(s, t); OwnerInv(s') && ShapeInv(s') && OrderInv(s')
  {
    var s' := DoEndTask(s, t);
    var stolen := s.threads[t].stolen;
    assert PointersOk(s, s.threads[t]);
    ChainTail(s.heap, stolen, s.batch);
    assert s.batch == [stolen] + s.batch[1..];
    NoDupSplit([stolen], s.batch[1..]);
    HolderFrame(s, s', t);
    EndTaskOrder(s, t);
    EndTaskOwner(s, t);
  }

  lemma EndTaskOrder(s: State, t: Id)
    requires OrderInv(s) && CanEndTask(s, t) && s.batch[0] == s.threads[t].stolen
    ensures OrderInv(DoEndTask(s, t))
  {
    assert Tasks(s.heap, s.batch) == [s.heap[s.batch[0]].task] + Tasks(s.heap, s.batch[1..]);
  }

  lemma EndTaskOwner(s: State, t: Id)
    requires TokenInv(s) && OwnerInv(s) && CanEndTask(s, t)
    requires s.batch[0] == s.threads[t].stolen && s.threads[t].stolen !in s.batch[1..]
    ensures OwnerInv(DoEndTask(s, t))
  {
    var s' := DoEndTask(s, t);
    Alone(s, t);
    assert s.batch == [s.batch[0]] + s.batch[1..];
    forall u, a | u in s'.threads ensures Owns(s', s'.threads[u], a) <==> Owns(s, s.threads[u], a) { }
  }

  /** What is freed is in neither list. */
  lemma FreeApart(s: State, t: Id)
    requires OwnerInv(s) && ShapeInv(s) && CanFree(s, t)
    ensures var stolen := s.threads[t].stolen; stolen !in s.batch && stolen !in s.stack && stolen in s.heap
    ensures Chain(s.heap, s.heap[s.threads[t].stolen].prev, s.batch)
  {
    var stolen := s.threads[t].stolen;
    assert PointersOk(s, s.threads[t]);
    assert Owns(s, s.threads[t], stolen);
    ChainTail(s.heap, stolen, [stolen] + s.batch);
    assert ([stolen] + s.batch)[1..] == s.batch;
  }

  /** So both stay linked. */
  lemma FreeChains(s: State, t: Id)
    requires OwnerInv(s) && ShapeInv(s) && CanFree(s, t)
    ensures var stolen := s.threads[t].stolen; var heap' := DoFree(s, t).heap;
            && stolen !in s.batch && stolen !in s.stack
            && Chain(heap', s.heap[stolen].prev, s.batch) && Chain(heap', s.head, s.stack)
  {
    FreeApart(s, t);
    ChainFrame(s.heap, DoFree(s, t).heap, s.heap[s.threads[t].stolen].prev, s.batch);
    ChainFrame(s.heap, DoFree(s, t).heap, s.head, s.stack);
  }

  lemma FreeShape(s: State, t: Id)
    requires TokenInv(s) && OwnerInv(s) && ShapeInv(s) && CanFree(s, t)
    ensures ShapeInv(DoFree(s, t))
  {
    FreeChains(s, t);
    HolderFrame(s, DoFree(s, t), t);
  }

  lemma FreeKeeps(s: State, t: Id)
    requires TokenInv(s) && OwnerInv(s) && ShapeInv(s) && OrderInv(s) && CanFree(s, t)
    ensures var s' := DoFree(s, t); OwnerInv(s') && ShapeInv(s') && OrderInv(s')
  {
    FreeChains(s, t);
    FreeShape(s, t);
    FreeOrder(s, t);
    FreeOwner(s, t);
  }

  lemma FreeOrder(s: State, t: Id)
    requires OwnerInv(s) && OrderInv(s) && CanFree(s, t)
    requires s.threads[t].stolen !in s.batch && s.threads[t].stolen !in s.stack
    ensures OrderInv(DoFree(s, t))
  {
    var heap' := DoFree(s, t).heap;
    forall i | 0 <= i < |s.stack| ensures Reversed(s.stack)[i] in s.stack { ReversedMembers(s.stack, Reversed(s.stack)[i]); }
    TasksFrame(s.heap, heap', s.batch);
    TasksFrame(s.heap, heap', Reversed(s.stack));
  }

  lemma FreeOwner(s: State, t: Id)
    requires TokenInv(s) && OwnerInv(s) && CanFree(s, t) && s.threads[t].stolen !in s.batch
    ensures OwnerInv(DoFree(s, t))
  {
    var s' := DoFree(s, t);
    var stolen := s.threads[t].stolen;
    Alone(s, t);
    assert Owns(s, s.threads[t], stolen);
    forall u, a | u in s'.threads && Owns(s', s'.threads[u], a) ensures a in s'.owner && s'.owner[a] == By(u) {
      assert Owns(s, s.threads[u], a);
    }
    forall a | a in s'.owner && s'.owner[a] != OnStack
      ensures s'.owner[a].thread in s'.threads && Owns(s', s'.threads[s'.owner[a].thread], a)
    {
      assert Owns(s, s.threads[s.owner[a].thread], a);
    }
  }

  // ----- every step, every run

  lemma StepKeepsInv(s: State, e: Event, s': State)
    requires Inv(s) && Step(s, e, s')
    ensures Inv(s')
  {
    TokenStep(s, e);
    ScheduleStep(s, e);
    if Quiet(e) { QuietKeeps(s, e); }
    else if e.Create? { CreateKeeps(s, e.t, e.node, e.task); }
    else if e.LoadHead? { LoadHeadKeeps(s, e.t); }
    else if e.PushExchange? {
      if s.head == s.threads[e.t].expected { PushKeeps(s, e.t); } else { RetryKeeps(s, e.t); }
    }
    else if e.Steal? {
      if s.head == NULL { StealNothingKeeps(s, e.t); } else { StealKeeps(s, e.t); }
    }
    else if e.ReverseOne? { ReverseKeeps(s, e.t); }
    else if e.EndTask? { EndTaskKeeps(s, e.t); }
    else { FreeKeeps(s, e.t); }
  }

  lemma InitHolds(s: State)
    requires Init(s)
    ensures Inv(s)
  {
    CountNone(s.threads, HoldsToken);
  }

  lemma RunsKeepInv(states: seq<State>, events: seq<Event>)
    requires Runs.IsRun(Init, Step, states, events)
    ensures forall i :: 0 <= i < |states| ==> Inv(states[i])
  {
    forall s | Init(s) ensures Inv(s) { InitHolds(s); }
    forall s, e, s' | Inv(s) && Step(s, e, s') ensures Inv(s') { StepKeepsInv(s, e, s'); }
    Runs.Invariance(Init, Step, Inv, states, events);
  }

  // ----- what the strand promises

  /** Exactly once, in push order: in every state the finished tasks, then the stolen batch from its oldest, then
      the stack from its bottom, spell out the successful pushes. */
  lemma FirstInFirstOut(states: seq<State>, events: seq<Event>, i: nat)
    requires Runs.IsRun(Init, Step, states, events) && i < |states|
    ensures OrderInv(states[i])
    ensures states[i].executed <= states[i].pushed
  {
    RunsKeepInv(states, events);
    OrderIsPrefix(states[i]);
  }

  lemma OrderIsPrefix(s: State)
    requires OrderInv(s)
    ensures s.executed <= s.pushed
  {
    assert s.executed + Tasks(s.heap, s.batch) + Tasks(s.heap, Reversed(s.stack))
        == s.executed + (Tasks(s.heap, s.batch) + Tasks(s.heap, Reversed(s.stack)));
  }

  /** One at a time: no two threads are ever inside tasks of the same strand. */
  lemma OneAtATime(states: seq<State>, events: seq<Event>, i: nat, t: Id, u: Id)
    requires Runs.IsRun(Init, Step, states, events) && i < |states|
    requires t in states[i].threads && states[i].threads[t].Executing?
    requires u in states[i].threads && states[i].threads[u].Executing?
    ensures t == u
  {
    RunsKeepInv(states, events);
    if t != u {
      OneHolder(states[i], t, u);
    }
  }

  /** The strand is an intrusive task: it is in the executor's queue at most once, and while it is there, or is
      running, or is being scheduled, the flag is down. */
  lemma NeverQueuedTwice(states: seq<State>, events: seq<Event>, i: nat, t: Id)
    requires Runs.IsRun(Init, Step, states, events) && i < |states| && t in states[i].threads
    ensures states[i].queued <= 1 && (states[i].flag ==> states[i].queued == 0)
    ensures HoldsToken(states[i].threads[t]) ==> states[i].queued == 0 && !states[i].flag
  {
    RunsKeepInv(states, events);
    if HoldsToken(states[i].threads[t]) {
      HolderTakesAll(states[i], t);
    }
  }

  /** No task is stranded: whenever the stack is non-empty, the strand is queued, or some thread is entitled to
      queue it, or some thread is committed to look again. */
  lemma NoLostSchedule(states: seq<State>, events: seq<Event>, i: nat)
    requires Runs.IsRun(Init, Step, states, events) && i < |states| && states[i].head != NULL
    ensures var s := states[i];
            s.queued == 1 || exists t :: t in s.threads && (HoldsToken(s.threads[t]) || WillLook(s.threads[t]))
  {
    RunsKeepInv(states, events);
    var s := states[i];
    if !s.flag && s.queued == 0 && forall t :: t in s.threads ==> !HoldsToken(s.threads[t]) {
      CountNone(s.threads, HoldsToken);
    }
  }

  /** When everything is at rest, every pushed task has been executed, in order, and every node was deleted. */
  lemma RestMeansDone(states: seq<State>, events: seq<Event>, i: nat)
    requires Runs.IsRun(Init, Step, states, events) && i < |states|
    requires states[i].queued == 0 && forall t :: t in states[i].threads ==> states[i].threads[t] == Idle
    ensures states[i].executed == states[i].pushed && states[i].heap == map[]
  {
    RunsKeepInv(states, events);
    var s := states[i];
    CountNone(s.threads, HoldsToken);
    ChainEnds(s.heap, s.head, s.stack);
    assert s.stack == [] && s.batch == [];
    assert Tasks(s.heap, s.batch) == [] && Tasks(s.heap, Reversed(s.stack)) == [];
    assert forall a :: a !in s.owner;
    assert s.heap.Keys == {};
  }

  lemma ChainFirst(heap: map<Addr, Node>, a: Addr, nodes: seq<Addr>)
    requires Chain(heap, a, nodes) && (a != NULL || nodes != [])
    ensures a in heap
  {
    assert Link(heap, nodes, 0);
  }

  /** The node that a thread's next action touches, if any. */
  ghost function Touched(pc: Pc): Addr {
    match pc
    case Created(node) => node
    case Linked(node, _) => node
    case Reversing(_, prev) => prev
    case Executing(stolen) => stolen
    case Freeing(stolen) => stolen
    case _ => NULL
  }

  lemma PusherTouchesLive(s: State, t: Id)
    requires OwnerInv(s) && t in s.threads && (s.threads[t].Created? || s.threads[t].Linked?)
    ensures Touched(s.threads[t]) in s.heap
  {
    assert Owns(s, s.threads[t], s.threads[t].node);
  }

  lemma HolderTouchesLive(s: State, pc: Pc)
    requires PointersOk(s, pc) && (pc.Reversing? || pc.Executing? || pc.Freeing?)
    ensures (pc.Reversing? && pc.prev == NULL) || Touched(pc) in s.heap
  {
    if pc.Reversing? && pc.prev != NULL {
      ChainFirst(s.heap, pc.prev, Rest(s));
    } else if pc.Executing? {
      ChainFirst(s.heap, pc.stolen, s.batch);
    } else if pc.Freeing? {
      ChainFirst(s.heap, pc.stolen, [pc.stolen] + s.batch);
    }
  }

  /** No thread ever stands before a memory access to a node that has been deleted. */
  lemma NoDanglingAccess(states: seq<State>, events: seq<Event>, i: nat, t: Id)
    requires Runs.IsRun(Init, Step, states, events) && i < |states| && t in states[i].threads
    ensures var pc := states[i].threads[t];
            && (pc.Created? || pc.Linked? || pc.Executing? || pc.Freeing? ==> Touched(pc) in states[i].heap)
            && (pc.Reversing? && pc.prev != NULL ==> pc.prev in states[i].heap)
  {
    RunsKeepInv(states, events);
    var s := states[i];
    var pc := s.threads[t];
    if pc.Created? || pc.Linked? {
      PusherTouchesLive(s, t);
    } else if pc.Reversing? || pc.Executing? || pc.Freeing? {
      HolderTouchesLive(s, pc);
    }
  }
}
