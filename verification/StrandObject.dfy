/** The strand as objects: task nodes reversed in place, and the strand itself with its two atomic fields, one
    method per atomic action. Callers may interleave the methods of any number of threads in any order. */
module Strands {
  import opened Lists
  import opened StrandModel
  import opened StrandProofs

  class TaskNode {
    var prev: TaskNode?
    const task: Task

    constructor (prev: TaskNode?, task: Task)
      ensures this.prev == prev && this.task == task
    {
      this.prev := prev;
      this.task := task;
    }

    /** Following prev from the first node visits exactly these nodes and ends at null. */
    static ghost predicate IsList(nodes: seq<TaskNode>)
      reads nodes
    {
      forall i :: 0 <= i < |nodes| ==> nodes[i].prev == Following(nodes, i)
    }

    static ghost function Following(nodes: seq<TaskNode>, i: int): TaskNode?
      requires -1 <= i < |nodes|
    {
      if i + 1 < |nodes| then nodes[i + 1] else null
    }

    static ghost function Preceding(nodes: seq<TaskNode>, i: int): TaskNode?
      requires 0 <= i <= |nodes|
    {
      if i == 0 then null else nodes[i - 1]
    }

    static lemma {:induction false} ListIsAcyclic(nodes: seq<TaskNode>)
      requires IsList(nodes)
      ensures NoDup(nodes)
    {
      if nodes != [] {
        var rest := nodes[1..];
        forall i | 0 <= i < |rest| ensures rest[i].prev == Following(rest, i) {
          assert rest[i] == nodes[i + 1];
        }
        ListIsAcyclic(rest);
        forall j | 0 <= j < |rest| ensures nodes[0] != rest[j] {
          assert nodes[0].prev == Following(nodes, 0) && rest[j].prev == Following(rest, j);
        }
      }
    }

    /** Turns the list starting here around, in place, and returns its new first node. */
    method Reverse(ghost nodes: seq<TaskNode>) returns (head: TaskNode)
      requires nodes != [] && nodes[0] == this && IsList(nodes)
      modifies nodes
      ensures IsList(Reversed(nodes)) && head == Reversed(nodes)[0]
    {
      var cur: TaskNode? := null;
      var prev: TaskNode? := this;
      ghost var i := 0;
      ListIsAcyclic(nodes);
      while prev != null
        invariant 0 <= i <= |nodes|
        invariant prev == if i < |nodes| then nodes[i] else null
        invariant cur == Preceding(nodes, i)
        invariant forall k :: 0 <= k < i ==> nodes[k].prev == Preceding(nodes, k)
        invariant forall k :: i <= k < |nodes| ==> nodes[k].prev == Following(nodes, k)
        decreases |nodes| - i
      {
        var save := prev.prev;
        prev.prev := cur;
        cur := prev;
        prev := save;
        i := i + 1;
      }
      head := cur;
      TurnedAround(nodes);
    }

    static lemma TurnedAround(nodes: seq<TaskNode>)
      requires forall k :: 0 <= k < |nodes| ==> nodes[k].prev == Preceding(nodes, k)
      ensures IsList(Reversed(nodes))
    {
      var n, turned := |nodes|, Reversed(nodes);
      forall k | 0 <= k < n ensures turned[k].prev == Following(turned, k) {
        assert turned[k] == nodes[n - 1 - k];
        assert nodes[n - 1 - k].prev == Preceding(nodes, n - 1 - k);
        if k + 1 < n {
          assert turned[k + 1] == nodes[n - 1 - (k + 1)];
        }
      }
    }
  }

  class Strand {
    var heap: map<Addr, Node>
    var tasks: Addr
    var reschedule: bool
    var queued: nat
    var threads: map<Id, Pc>
    ghost var pushed: seq<Task>
    ghost var executed: seq<Task>
    ghost var stack: seq<Addr>
    ghost var turned: nat
    ghost var batch: seq<Addr>
    ghost var owner: map<Addr, Owner>

    ghost function View(): State
      reads this
    {
      State(heap, tasks, reschedule, queued, threads, pushed, executed, stack, turned, batch, owner)
    }

    ghost predicate Valid()
      reads this
    {
      Inv(View())
    }

    constructor (ids: set<Id>)
      ensures Valid() && Init(View()) && threads.Keys == ids
    {
      heap, tasks, reschedule, queued := map[], NULL, true, 0;
      threads := map t | t in ids :: Idle;
      pushed, executed, stack, turned, batch, owner := [], [], [], 0, [], map[];
      new;
      InitHolds(View());
    }

    // ----- Execute

    method Create(t: Id, node: Addr, task: Task)
      requires Valid() && Enabled(View(), Event.Create(t, node, task))
      modifies this
      ensures Valid() && View() == Perform(old(View()), Event.Create(t, node, task))
      ensures node in heap && heap[node].task == task && threads == old(threads)[t := Created(node)]
    {
      heap := heap[node := Node(NULL, task)];
      owner := owner[node := By(t)];
      threads := threads[t := Created(node)];
      StepKeepsInv(old(View()), Event.Create(t, node, task), View());
    }

    method LoadHead(t: Id)
      requires Valid() && Enabled(View(), Event.LoadHead(t))
      modifies this
      ensures Valid() && View() == Perform(old(View()), Event.LoadHead(t))
    {
      var node := threads[t].node;
      heap := heap[node := heap[node].(prev := tasks)];
      threads := threads[t := Linked(node, tasks)];
      StepKeepsInv(old(View()), Event.LoadHead(t), View());
    }

    /** The compare-exchange of tasks_: true puts the node on the stack, even if the expected address was freed
        and reused since it was read. */
    method PushExchange(t: Id) returns (won: bool)
      requires Valid() && Enabled(View(), Event.PushExchange(t))
      modifies this
      ensures Valid() && View() == Perform(old(View()), Event.PushExchange(t))
      ensures won <==> old(tasks) == old(threads[t]).expected
      ensures pushed == if won then old(pushed) + [old(heap)[old(threads[t]).node].task] else old(pushed)
    {
      var pc := threads[t];
      won := tasks == pc.expected;
      if won {
        tasks := pc.node;
        stack := [pc.node] + stack;
        pushed := pushed + [heap[pc.node].task];
        owner := owner[pc.node := OnStack];
        threads := threads[t := Published];
      } else {
        threads := threads[t := Created(pc.node)];
      }
      StepKeepsInv(old(View()), Event.PushExchange(t), View());
    }

    /** Whoever takes the flag is alone entitled to schedule the strand. */
    method TestFlag(t: Id)
      requires Valid() && Enabled(View(), Event.TestFlag(t))
      modifies this
      ensures Valid() && View() == Perform(old(View()), Event.TestFlag(t))
      ensures t in threads && (threads[t].Scheduling? ==> forall u :: u in threads && u != t ==> !HoldsToken(threads[u]))
    {
      threads := threads[t := if reschedule then Scheduling else Idle];
      reschedule := false;
      StepKeepsInv(old(View()), Event.TestFlag(t), View());
      if threads[t].Scheduling? {
        HolderTakesAll(View(), t);
      }
    }

    /** The executor gets the strand, and it is the only copy there. */
    method Schedule(t: Id)
      requires Valid() && Enabled(View(), Event.Schedule(t))
      modifies this
      ensures Valid() && View() == Perform(old(View()), Event.Schedule(t))
      ensures queued == 1 && !reschedule
    {
      HolderTakesAll(View(), t);
      queued := queued + 1;
      threads := threads[t := Idle];
      StepKeepsInv(old(View()), Event.Schedule(t), View());
    }

    // ----- Run

    /** The executor runs the strand; no other thread is entitled to it now. */
    method Start(t: Id)
      requires Valid() && Enabled(View(), Event.Start(t))
      modifies this
      ensures Valid() && View() == Perform(old(View()), Event.Start(t))
      ensures queued == 0 && forall u :: u in threads && u != t ==> !HoldsToken(threads[u])
    {
      queued := queued - 1;
      threads := threads[t := Stealing];
      StepKeepsInv(old(View()), Event.Start(t), View());
      HolderTakesAll(View(), t);
    }

    /** The exchange of tasks_ with null: everything on the stack changes hands at once. */
    method Steal(t: Id)
      requires Valid() && Enabled(View(), Event.Steal(t))
      modifies this
      ensures Valid() && View() == Perform(old(View()), Event.Steal(t))
      ensures tasks == NULL && stack == []
    {
      StealTakesAll(View(), t);
      if tasks == NULL {
        threads := threads[t := FoundNone];
      } else {
        TakeStack(t);
      }
      StepKeepsInv(old(View()), Event.Steal(t), View());
    }

    method TakeStack(t: Id)
      requires At(View(), t, Stealing) && tasks != NULL
      modifies this
      ensures View() == DoSteal(old(View()), t)
    {
      threads := threads[t := Reversing(NULL, tasks)];
      tasks := NULL;
      turned := 0;
      batch := Reversed(stack);
      stack := [];
      owner := map a | a in owner :: if owner[a] == OnStack then By(t) else owner[a];
    }

    method SetFlag(t: Id)
      requires Valid() && Enabled(View(), Event.SetFlag(t))
      modifies this
      ensures Valid() && View() == Perform(old(View()), Event.SetFlag(t))
    {
      reschedule := true;
      threads := threads[t := Rechecking];
      StepKeepsInv(old(View()), Event.SetFlag(t), View());
    }

    method Recheck(t: Id)
      requires Valid() && Enabled(View(), Event.Recheck(t))
      modifies this
      ensures Valid() && View() == Perform(old(View()), Event.Recheck(t))
    {
      threads := threads[t := if tasks == NULL then Idle else Reclaiming];
      StepKeepsInv(old(View()), Event.Recheck(t), View());
    }

    /** The same after the second look at tasks_. */
    method Reclaim(t: Id)
      requires Valid() && Enabled(View(), Event.Reclaim(t))
      modifies this
      ensures Valid() && View() == Perform(old(View()), Event.Reclaim(t))
      ensures t in threads && (threads[t].Scheduling? ==> forall u :: u in threads && u != t ==> !HoldsToken(threads[u]))
    {
      threads := threads[t := if reschedule then Scheduling else Idle];
      reschedule := false;
      StepKeepsInv(old(View()), Event.Reclaim(t), View());
      if threads[t].Scheduling? {
        HolderTakesAll(View(), t);
      }
    }

    method ReverseOne(t: Id)
      requires Valid() && Enabled(View(), Event.ReverseOne(t))
      modifies this
      ensures Valid() && View() == Perform(old(View()), Event.ReverseOne(t))
    {
      var pc := threads[t];
      var save := heap[pc.prev].prev;
      heap := heap[pc.prev := heap[pc.prev].(prev := pc.cur)];
      threads := threads[t := Reversing(pc.prev, save)];
      turned := turned + 1;
      StepKeepsInv(old(View()), Event.ReverseOne(t), View());
    }

    method ReverseDone(t: Id)
      requires Valid() && Enabled(View(), Event.ReverseDone(t))
      modifies this
      ensures Valid() && View() == Perform(old(View()), Event.ReverseDone(t))
    {
      threads := threads[t := Draining(threads[t].cur)];
      StepKeepsInv(old(View()), Event.ReverseDone(t), View());
    }

    method BeginTask(t: Id)
      requires Valid() && Enabled(View(), Event.BeginTask(t))
      modifies this
      ensures Valid() && View() == Perform(old(View()), Event.BeginTask(t))
    {
      threads := threads[t := Executing(threads[t].stolen)];
      StepKeepsInv(old(View()), Event.BeginTask(t), View());
    }

    method EndTask(t: Id) returns (task: Task)
      requires Valid() && Enabled(View(), Event.EndTask(t))
      modifies this
      ensures Valid() && View() == Perform(old(View()), Event.EndTask(t))
      ensures executed == old(executed) + [task] && executed <= pushed
    {
      task := heap[threads[t].stolen].task;
      LeaveBatch(t);
      StepKeepsInv(old(View()), Event.EndTask(t), View());
      OrderIsPrefix(View());
    }

    method LeaveBatch(t: Id)
      requires CanEndTask(View(), t)
      modifies this
      ensures View() == DoEndTask(old(View()), t)
    {
      var stolen := threads[t].stolen;
      executed := executed + [heap[stolen].task];
      batch := batch[1..];
      threads := threads[t := Freeing(stolen)];
    }

    method Free(t: Id)
      requires Valid() && Enabled(View(), Event.Free(t))
      modifies this
      ensures Valid() && View() == Perform(old(View()), Event.Free(t))
    {
      var stolen := threads[t].stolen;
      threads := threads[t := Draining(heap[stolen].prev)];
      heap := heap - {stolen};
      owner := owner - {stolen};
      StepKeepsInv(old(View()), Event.Free(t), View());
    }

    method DrainDone(t: Id)
      requires Valid() && Enabled(View(), Event.DrainDone(t))
      modifies this
      ensures Valid() && View() == Perform(old(View()), Event.DrainDone(t))
    {
      threads := threads[t := Scheduling];
      StepKeepsInv(old(View()), Event.DrainDone(t), View());
    }
  }
}
