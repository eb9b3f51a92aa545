/** The queue spin lock as an object, one method per atomic access; the methods of any number of threads may be
    interleaved in any order. */
module QueueSpinLocks {
  import opened QueueSpinLockModel

  class QueueSpinLock {
    var nodes: map<Addr, SpinNode>
    var end: Addr
    var threads: map<Id, Pc>
    ghost var holder: map<Addr, Id>
    ghost var queue: seq<Id>
    ghost var arrivals: seq<Id>
    ghost var grants: seq<Id>

    ghost function View(): State
      reads this
    {
      State(nodes, end, threads, holder, queue, arrivals, grants)
    }

    ghost predicate Valid()
      reads this
    {
      Inv(View())
    }

    constructor (ids: set<Id>)
      ensures Valid() && Init(View()) && threads.Keys == ids
    {
      nodes, end := map[], NULL;
      threads := map t | t in ids :: Idle;
      holder, queue, arrivals, grants := map[], [], [], [];
      new;
      InitHolds(View());
    }

    /** A guard is placed at a free address. */
    method Construct(t: Id, node: Addr)
      requires Valid() && Enabled(View(), Event.Construct(t, node))
      modifies this
      ensures Valid() && View() == Perform(old(View()), Event.Construct(t, node))
    {
      nodes := nodes[node := SpinNode(NULL, true)];
      holder := holder[node := t];
      threads := threads[t := Constructed(node)];
      StepKeepsInv(old(View()), Event.Construct(t, node), View());
    }

    method Exchange(t: Id) returns (entered: bool)
      requires Valid() && Enabled(View(), Event.Exchange(t))
      modifies this
      ensures Valid() && View() == Perform(old(View()), Event.Exchange(t))
      ensures entered <==> old(end) == NULL
      ensures entered ==> threads[t].Critical? && grants == old(grants) + [t]
    {
      var node, prev := threads[t].node, end;
      end := node;
      queue, arrivals := queue + [t], arrivals + [t];
      entered := prev == NULL;
      if entered {
        threads := threads[t := Critical(node)];
        grants := grants + [t];
      } else {
        threads := threads[t := Linking(node, prev)];
      }
      StepKeepsInv(old(View()), Event.Exchange(t), View());
    }

    method Link(t: Id)
      requires Valid() && Enabled(View(), Event.Link(t))
      modifies this
      ensures Valid() && View() == Perform(old(View()), Event.Link(t))
    {
      var pc := threads[t];
      nodes := nodes[pc.prev := nodes[pc.prev].(next := pc.node)];
      threads := threads[t := Spinning(pc.node)];
      StepKeepsInv(old(View()), Event.Link(t), View());
    }

    /** One turn of the spin loop; leaving it means being alone in the critical section. */
    method Spin(t: Id) returns (entered: bool)
      requires Valid() && Enabled(View(), Event.Spin(t))
      modifies this
      ensures Valid() && View() == Perform(old(View()), Event.Spin(t))
      ensures entered ==> threads[t].Critical? && forall u :: u in threads && u != t ==> !threads[u].Critical?
    {
      entered := !nodes[threads[t].node].notChanged;
      if entered {
        threads := threads[t := Critical(threads[t].node)];
        grants := grants + [t];
      }
      StepKeepsInv(old(View()), Event.Spin(t), View());
      if entered {
        AloneInside(View(), t);
      }
    }

    /** The lock is left closed only when nobody else has asked for it. */
    method TryClose(t: Id) returns (closed: bool)
      requires Valid() && Enabled(View(), Event.TryClose(t))
      modifies this
      ensures Valid() && View() == Perform(old(View()), Event.TryClose(t))
      ensures closed <==> old(queue) == [t]
    {
      OnlyOne(View(), t);
      var node := threads[t].node;
      closed := end == node;
      if closed {
        threads := threads[t := Leaving(node)];
        end := NULL;
        queue := [];
      } else {
        threads := threads[t := Polling(node)];
      }
      StepKeepsInv(old(View()), Event.TryClose(t), View());
    }

    method Poll(t: Id) returns (linked: bool)
      requires Valid() && Enabled(View(), Event.Poll(t))
      modifies this
      ensures Valid() && View() == Perform(old(View()), Event.Poll(t))
      ensures linked <==> old(nodes)[old(threads)[t].node].next != NULL
    {
      linked := nodes[threads[t].node].next != NULL;
      if linked {
        threads := threads[t := Loading(threads[t].node)];
      }
      StepKeepsInv(old(View()), Event.Poll(t), View());
    }

    /** What is loaded is the node of whoever asked next. */
    method LoadNext(t: Id)
      requires Valid() && Enabled(View(), Event.LoadNext(t))
      modifies this
      ensures Valid() && View() == Perform(old(View()), Event.LoadNext(t))
      ensures t in threads && threads[t].Signalling? && |queue| > 1 && threads[t].succ == NodeOf(View(), queue[1])
    {
      threads := threads[t := Signalling(threads[t].node, nodes[threads[t].node].next)];
      StepKeepsInv(old(View()), Event.LoadNext(t), View());
      SuccessorIsNext(View(), t);
    }

    /** Whoever asked next, and nobody else, is let in. */
    method Signal(t: Id)
      requires Valid() && Enabled(View(), Event.Signal(t))
      modifies this
      ensures Valid() && View() == Perform(old(View()), Event.Signal(t))
      ensures old(queue) == [t] + queue && queue != [] && LetIn(View(), queue[0])
      ensures forall u :: u in queue[1..] ==> !LetIn(View(), u)
    {
      SignalLetsIn(View(), t);
      var pc := threads[t];
      nodes := nodes[pc.succ := nodes[pc.succ].(notChanged := false)];
      queue := queue[1..];
      threads := threads[t := Leaving(pc.node)];
      StepKeepsInv(old(View()), Event.Signal(t), View());
    }

    method Destroy(t: Id)
      requires Valid() && Enabled(View(), Event.Destroy(t))
      modifies this
      ensures Valid() && View() == Perform(old(View()), Event.Destroy(t))
    {
      var node := threads[t].node;
      nodes := nodes - {node};
      holder := holder - {node};
      threads := threads[t := Idle];
      StepKeepsInv(old(View()), Event.Destroy(t), View());
    }
  }
}
