/** What becomes of the tasks that Execute is called with: each is pushed once, by the thread it was given to and in that
    thread's order, and at rest exactly these tasks have been executed. */
module StrandHistory {
  import opened Counting
  import opened StrandModel
  import opened StrandProofs
  import StrandProgress
  import Histories
  import Runs

  /** The tasks that Execute is called with. */
  ghost function HandedIn(s: State, e: Event, s': State): seq<Task> {
    if e.Create? then [e.task] else []
  }

  ghost function HandedInBy(t: Id): (State, Event, State) -> seq<Task> {
    (s: State, e: Event, s': State) => if e.t == t then HandedIn(s, e, s') else []
  }

  /** What a step adds to the tasks pushed so far. */
  ghost function Added(s: State, s': State): seq<Task> {
    if |s.pushed| < |s'.pushed| then s'.pushed[|s.pushed|..] else []
  }

  ghost function PushedBy(t: Id): (State, Event, State) -> seq<Task> {
    (s: State, e: Event, s': State) => if e.t == t then Added(s, s') else []
  }

  /** Where in the order of the pushes they land. */
  ghost function PlacesOf(t: Id): (State, Event, State) -> seq<nat> {
    (s: State, e: Event, s': State) => if e.t == t && |s.pushed| < |s'.pushed| then [|s.pushed|] else []
  }

  /** The task of the node that thread t has made and not pushed yet. */
  ghost function InHand(s: State, t: Id): seq<Task> {
    if t in s.threads && StrandProgress.Unpublished(s.threads[t]) && s.threads[t].node in s.heap
    then [s.heap[s.threads[t].node].task] else []
  }

  lemma PushingHand(s: State, e: Event)
    requires OwnerInv(s) && Enabled(s, e) && (e.Create? || e.LoadHead? || e.PushExchange?)
    ensures InHand(s, e.t) + HandedIn(s, e, Perform(s, e)) == Added(s, Perform(s, e)) + InHand(Perform(s, e), e.t)
    ensures |Added(s, Perform(s, e))| <= 1 && Perform(s, e).pushed == s.pushed + Added(s, Perform(s, e))
  {
    assert StrandProgress.Unpublished(s.threads[e.t]) ==> Owns(s, s.threads[e.t], s.threads[e.t].node);
  }

  lemma EmptyHand(s: State, e: Event)
    requires Enabled(s, e) && !e.Create? && !e.LoadHead? && !e.PushExchange?
    ensures InHand(s, e.t) == InHand(Perform(s, e), e.t) == [] && Perform(s, e).pushed == s.pushed
  {
  }

  lemma OwnHand(s: State, e: Event)
    requires OwnerInv(s) && Enabled(s, e)
    ensures InHand(s, e.t) + HandedIn(s, e, Perform(s, e)) == Added(s, Perform(s, e)) + InHand(Perform(s, e), e.t)
    ensures |Added(s, Perform(s, e))| <= 1 && Perform(s, e).pushed == s.pushed + Added(s, Perform(s, e))
  {
    if e.Create? || e.LoadHead? || e.PushExchange? {
      PushingHand(s, e);
    } else {
      EmptyHand(s, e);
    }
  }

  /** Every step leaves the task of a node alone, unless it makes or deletes the node. */
  lemma TasksStay(s: State, e: Event, a: Addr)
    requires Enabled(s, e) && a in s.heap && !(e.Free? && s.threads[e.t].stolen == a) && !(e.Create? && e.node == a)
    ensures a in Perform(s, e).heap && Perform(s, e).heap[a].task == s.heap[a].task
  {
  }

  lemma OtherThreadsStay(s: State, e: Event, u: Id)
    requires Enabled(s, e) && u != e.t
    ensures u in Perform(s, e).threads <==> u in s.threads
    ensures u in s.threads ==> Perform(s, e).threads[u] == s.threads[u]
  {
  }

  lemma OtherHands(s: State, e: Event, u: Id)
    requires OwnerInv(s) && Enabled(s, e) && u != e.t
    ensures InHand(Perform(s, e), u) == InHand(s, u)
  {
    OtherThreadsStay(s, e, u);
    if u in s.threads && StrandProgress.Unpublished(s.threads[u]) {
      var a := s.threads[u].node;
      assert Owns(s, s.threads[u], a);
      if e.Free? {
        assert Owns(s, s.threads[e.t], s.threads[e.t].stolen);
      }
      TasksStay(s, e, a);
    }
  }

  lemma HandStep(s: State, e: Event, s': State, t: Id)
    requires Inv(s) && Step(s, e, s')
    ensures InHand(s, t) + HandedInBy(t)(s, e, s') == PushedBy(t)(s, e, s') + InHand(s', t)
  {
    if t == e.t {
      OwnHand(s, e);
    } else {
      OtherHands(s, e, t);
    }
  }

  /** One thread's tasks are pushed in the order in which it was given them. */
  lemma PushedInOrder(states: seq<State>, events: seq<Event>, t: Id)
    requires Runs.IsRun(Init, Step, states, events)
    ensures var n := |events|;
            Histories.Gathered(HandedInBy(t), states, events, 0, n)
            == Histories.Gathered(PushedBy(t), states, events, 0, n) + InHand(states[n], t)
  {
    RunsKeepInv(states, events);
    forall k | 0 <= k < |events|
      ensures InHand(states[k], t) + HandedInBy(t)(states[k], events[k], states[k + 1])
              == PushedBy(t)(states[k], events[k], states[k + 1]) + InHand(states[k + 1], t)
    {
      HandStep(states[k], events[k], states[k + 1], t);
    }
    Histories.FirstInFirstOut(HandedInBy(t), PushedBy(t), s => InHand(s, t), states, events, 0, |events|);
    var all := Histories.Gathered(HandedInBy(t), states, events, 0, |events|);
    assert InHand(states[0], t) == [];
    assert [] + all == all;
  }

  /** These are the places at which these tasks stand in the list, one after the other. */
  ghost predicate StandAt(list: seq<Task>, places: seq<nat>, tasks: seq<Task>) {
    && |places| == |tasks|
    && (forall k :: 0 <= k < |places| ==> places[k] < |list| && list[places[k]] == tasks[k])
    && forall k, l :: 0 <= k < l < |places| ==> places[k] < places[l]
  }

  lemma StandLonger(list: seq<Task>, places: seq<nat>, tasks: seq<Task>, x: Task)
    requires StandAt(list, places, tasks)
    ensures StandAt(list + [x], places, tasks) && StandAt(list + [x], places + [|list|], tasks + [x])
  {
  }

  lemma StandStep(s: State, e: Event, t: Id, places: seq<nat>, tasks: seq<Task>)
    requires Inv(s) && Enabled(s, e) && StandAt(s.pushed, places, tasks)
    ensures var s' := Perform(s, e); StandAt(s'.pushed, places + PlacesOf(t)(s, e, s'), tasks + PushedBy(t)(s, e, s'))
  {
    var s' := Perform(s, e);
    OwnHand(s, e);
    assert places + [] == places && tasks + [] == tasks;
    if Added(s, s') != [] {
      assert Added(s, s') == [Added(s, s')[0]];
      StandLonger(s.pushed, places, tasks, Added(s, s')[0]);
    } else {
      assert s'.pushed == s.pushed;
    }
  }

  lemma {:induction false} PushesStand(states: seq<State>, events: seq<Event>, t: Id, n: nat)
    requires Runs.IsRun(Init, Step, states, events) && n <= |events|
    ensures StandAt(states[n].pushed, Histories.Gathered(PlacesOf(t), states, events, 0, n),
                    Histories.Gathered(PushedBy(t), states, events, 0, n))
  {
    if n > 0 {
      var k := n - 1;
      PushesStand(states, events, t, k);
      RunsKeepInv(states, events);
      assert Step(states[k], events[k], states[k + 1]);
      StandStep(states[k], events[k], t, Histories.Gathered(PlacesOf(t), states, events, 0, k),
                Histories.Gathered(PushedBy(t), states, events, 0, k));
    }
  }

  /** When a run cannot go on, every task that a thread called Execute with has been executed, and in that thread's order:
      there are increasing places in the list of executed tasks at which they stand. */
  lemma ExecutedInThreadOrder(states: seq<State>, events: seq<Event>, t: Id) returns (places: seq<nat>)
    requires Runs.IsRun(Init, Step, states, events) && StrandProgress.AtRest(states[|states| - 1])
    requires t in states[|states| - 1].threads
    ensures StandAt(states[|states| - 1].executed, places, Histories.Gathered(HandedInBy(t), states, events, 0, |events|))
  {
    var n := |events|;
    places := Histories.Gathered(PlacesOf(t), states, events, 0, n);
    PushedInOrder(states, events, t);
    PushesStand(states, events, t, n);
    StrandProgress.EveryPushIsExecuted(states, events, t);
    RunsKeepInv(states, events);
    assert Inv(states[n]);
    StrandProgress.RestingThread(states[n], t);
    var pushed := Histories.Gathered(PushedBy(t), states, events, 0, n);
    assert pushed + [] == pushed;
  }

  // ----- all threads together

  ghost function Bearers(s: State, x: Task): set<Id> {
    set t | t in s.threads && InHand(s, t) == [x]
  }

  lemma BearersStep(s: State, e: Event, x: Task)
    requires Inv(s) && Enabled(s, e)
    ensures |Bearers(Perform(s, e), x)| + (if Added(s, Perform(s, e)) == [x] then 1 else 0)
            == |Bearers(s, x)| + (if HandedIn(s, e, Perform(s, e)) == [x] then 1 else 0)
  {
    var s' := Perform(s, e);
    OwnHand(s, e);
    forall u | u != e.t ensures u in Bearers(s', x) <==> u in Bearers(s, x) {
      OtherHands(s, e, u);
    }
    Exchanged(Bearers(s, x), Bearers(s', x), e.t);
  }

  lemma Exchanged(a: set<Id>, b: set<Id>, t: Id)
    requires forall u :: u != t ==> (u in a <==> u in b)
    ensures |b| + (if t in a then 1 else 0) == |a| + (if t in b then 1 else 0)
  {
    WithOrWithout(a, t);
    WithOrWithout(b, t);
    forall u ensures u in a - {t} <==> u in b - {t} { }
    assert a - {t} == b - {t};
  }

  lemma OneMore(list: seq<Task>, more: seq<Task>, x: Task)
    requires |more| <= 1
    ensures multiset(list + more)[x] == multiset(list)[x] + (if more == [x] then 1 else 0)
  {
  }

  lemma CreatedStep(s: State, e: Event, s': State, created: seq<Task>, x: Task)
    requires Inv(s) && Step(s, e, s')
    requires multiset(s.pushed)[x] + |Bearers(s, x)| == multiset(created)[x]
    ensures multiset(s'.pushed)[x] + |Bearers(s', x)| == multiset(created + HandedIn(s, e, s'))[x]
  {
    BearersStep(s, e, x);
    OwnHand(s, e);
    OneMore(s.pushed, Added(s, s'), x);
    OneMore(created, HandedIn(s, e, s'), x);
  }

  /** In every state of every run and for every task: it has been pushed as often as Execute was called with it, less the
      threads that are still about to push it. */
  lemma {:induction false} CreatedIsPushed(states: seq<State>, events: seq<Event>, n: nat, x: Task)
    requires Runs.IsRun(Init, Step, states, events) && n <= |events|
    ensures multiset(states[n].pushed)[x] + |Bearers(states[n], x)|
            == multiset(Histories.Gathered(HandedIn, states, events, 0, n))[x]
  {
    if n == 0 {
      assert Bearers(states[0], x) == {};
    } else {
      CreatedIsPushed(states, events, n - 1, x);
      RunsKeepInv(states, events);
      assert Step(states[n - 1], events[n - 1], states[n - 1 + 1]);
      CreatedStep(states[n - 1], events[n - 1], states[n], Histories.Gathered(HandedIn, states, events, 0, n - 1), x);
    }
  }

  /** When a run cannot go on, exactly the tasks that Execute was called with have been executed. */
  lemma EverythingIsExecuted(states: seq<State>, events: seq<Event>, t: Id)
    requires Runs.IsRun(Init, Step, states, events) && StrandProgress.AtRest(states[|states| - 1])
    requires t in states[|states| - 1].threads
    ensures multiset(states[|states| - 1].executed) == multiset(Histories.Gathered(HandedIn, states, events, 0, |events|))
  {
    var n := |events|;
    var s := states[n];
    StrandProgress.EveryPushIsExecuted(states, events, t);
    RunsKeepInv(states, events);
    assert Inv(s);
    forall x ensures multiset(s.executed)[x] == multiset(Histories.Gathered(HandedIn, states, events, 0, n))[x] {
      CreatedIsPushed(states, events, n, x);
      forall u | u in s.threads ensures InHand(s, u) == [] { StrandProgress.RestingThread(s, u); }
      assert Bearers(s, x) == {};
    }
  }
}
