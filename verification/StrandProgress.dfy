/** The strand comes to rest. Once no new task is handed in, every step, whoever takes it, lowers a measure of the work
    that is left, so only so many steps can follow; and when none is possible every task has been executed. */
module StrandProgress {
  import opened Counting
  import opened Lists
  import opened StrandModel
  import opened StrandProofs
  import Runs

  /** A node made but not pushed yet. */
  predicate Unpublished(pc: Pc) {
    pc.Created? || pc.Linked?
  }

  ghost function Pending(s: State): nat {
    Count(s.threads, Unpublished)
  }

  ghost function NonEmpty(s: State): nat {
    if s.head != NULL then 1 else 0
  }

  /** What a thread's remaining work depends on: the pushes to come, whether the stack holds anything, what tasks_ is,
      and how far the batch is. */
  datatype Outlook = Outlook(pending: nat, full: nat, head: Addr, batch: nat, turned: nat)

  ghost function View(s: State): Outlook {
    Outlook(Pending(s), NonEmpty(s), s.head, |s.batch|, s.turned)
  }

  /** A compare-exchange that is going to fail costs two steps more than one that is not, unless the stack moves again.
      A thread that has found the stack empty can be sent round once more for every filling of the stack to come. */
  function Weight(o: Outlook, pc: Pc): nat {
    match pc
    case Idle => 0
    case Created(_) => 8 * o.pending + 18
    case Linked(_, expected) => 8 * o.pending + (if expected == o.head then 17 else 19)
    case Published => 8 * o.pending + 6
    case Reclaiming => 8 * o.pending + 6
    case Scheduling => 8 * o.pending + 5
    case Stealing => 8 * o.pending + 3
    case FoundNone => 8 * (o.pending + o.full) + 2
    case Rechecking => 8 * (o.pending + o.full) + 1
    case Reversing(_, _) => 8 * o.pending + 7 + (if o.turned <= o.batch then 4 * o.batch - o.turned else 0)
    case Draining(_) => 8 * o.pending + 6 + 3 * o.batch
    case Executing(_) => 8 * o.pending + 5 + 3 * o.batch
    case Freeing(_) => 8 * o.pending + 7 + 3 * o.batch
  }

  ghost function Weigh(o: Outlook): Pc -> nat {
    pc => Weight(o, pc)
  }

  /** Every move of tasks_ can make every pending compare-exchange fail once. */
  function Rework(pending: nat, full: nat): nat {
    2 * pending * (2 * pending + full)
  }

  ghost function Waiting(s: State): nat {
    if s.queued > 0 then 8 * Pending(s) + 4 else 0
  }

  ghost function Left(s: State): nat {
    Sum(s.threads, Weigh(View(s)))
  }

  /** All the work left. */
  ghost function Measure(s: State): nat {
    Rework(Pending(s), NonEmpty(s)) + 4 * |s.stack| + 5 * NonEmpty(s) + Waiting(s) + Left(s)
  }

  // ----- every step but a Create lowers it

  /** One thread moves on, everybody else's weight may grow by what is charged. */
  lemma SumMoves(threads: map<Id, Pc>, t: Id, pc: Pc, o: Outlook, o': Outlook, extra: Pc -> nat)
    requires t in threads
    requires forall u :: u in threads && u != t ==> Weight(o', threads[u]) <= Weight(o, threads[u]) + extra(threads[u])
    ensures Sum(threads[t := pc], Weigh(o')) + Weight(o, threads[t])
            <= Sum(threads, Weigh(o)) + Weight(o', pc) + Sum(threads - {t}, extra)
  {
    var rest := threads - {t};
    assert threads[t := pc] - {t} == rest;
    SumOut(threads, t, Weigh(o));
    SumOut(threads[t := pc], t, Weigh(o'));
    SumChange(rest, Weigh(o), Weigh(o'), extra);
  }

  lemma PendingMove(s: State, t: Id, pc: Pc)
    requires t in s.threads
    ensures Count(s.threads[t := pc], Unpublished) + (if Unpublished(s.threads[t]) then 1 else 0)
            == Pending(s) + (if Unpublished(pc) then 1 else 0)
  {
    CountMove(s.threads, t, pc, Unpublished);
  }

  /** A step after which nobody else is worse or better off. */
  lemma QuietLeft(s: State, s': State, t: Id)
    requires t in s.threads && t in s'.threads && s'.threads == s.threads[t := s'.threads[t]]
    requires View(s') == View(s)
    ensures Left(s') + Weight(View(s), s.threads[t]) == Left(s) + Weight(View(s), s'.threads[t])
  {
    SumMove(s.threads, t, s'.threads[t], Weigh(View(s)));
  }

  lemma QuietMove(s: State, s': State, t: Id)
    requires t in s.threads && t in s'.threads && s'.threads == s.threads[t := s'.threads[t]]
    requires s'.head == s.head && s'.stack == s.stack && s'.batch == s.batch && s'.turned == s.turned
    requires Unpublished(s'.threads[t]) == Unpublished(s.threads[t])
    requires Weight(View(s), s'.threads[t]) + (if s'.queued > 0 then 8 * Pending(s) + 4 else 0)
             < Weight(View(s), s.threads[t]) + Waiting(s)
    ensures Measure(s') < Measure(s)
  {
    PendingMove(s, t, s'.threads[t]);
    QuietLeft(s, s', t);
  }

  ghost predicate PushesNow(s: State, e: Event) {
    e.PushExchange? && Enabled(s, e) && s.head == s.threads[e.t].expected
  }

  ghost predicate StealsNow(s: State, e: Event) {
    e.Steal? && Enabled(s, e) && s.head != NULL
  }

  ghost predicate QuietEvent(s: State, e: Event) {
    Enabled(s, e) && !e.Create? && !PushesNow(s, e) && !StealsNow(s, e) && !e.ReverseOne? && !e.EndTask?
  }

  lemma PusherWorks(s: State, e: Event)
    requires TokenInv(s) && QuietEvent(s, e) && (e.LoadHead? || e.PushExchange? || e.TestFlag? || e.Reclaim? || e.Start?)
    ensures Measure(Perform(s, e)) < Measure(s)
  {
    QuietMove(s, Perform(s, e), e.t);
  }

  lemma ScheduleWorks(s: State, t: Id)
    requires TokenInv(s) && At(s, t, Scheduling)
    ensures Measure(DoSchedule(s, t)) < Measure(s)
  {
    HolderTakesAll(s, t);
    QuietMove(s, DoSchedule(s, t), t);
  }

  lemma EmptyWorks(s: State, e: Event)
    requires QuietEvent(s, e) && (e.Steal? || e.SetFlag? || e.Recheck?)
    ensures Measure(Perform(s, e)) < Measure(s)
  {
    QuietMove(s, Perform(s, e), e.t);
  }

  lemma AllTurned(s: State, t: Id)
    requires ShapeInv(s) && t in s.threads && s.threads[t].Reversing? && s.threads[t].prev == NULL
    ensures s.turned == |s.batch|
  {
    assert PointersOk(s, s.threads[t]);
    ChainEnds(s.heap, s.threads[t].prev, Rest(s));
  }

  lemma ReversedWorks(s: State, t: Id)
    requires t in s.threads && s.threads[t].Reversing? && s.turned == |s.batch|
    ensures Measure(Go(s, t, Draining(s.threads[t].cur))) < Measure(s)
  {
    QuietMove(s, Go(s, t, Draining(s.threads[t].cur)), t);
  }

  lemma DrainWorks(s: State, e: Event)
    requires QuietEvent(s, e) && (e.BeginTask? || e.Free? || e.DrainDone?)
    ensures Measure(Perform(s, e)) < Measure(s)
  {
    QuietMove(s, Perform(s, e), e.t);
  }

  lemma QuietWorks(s: State, e: Event)
    requires TokenInv(s) && ShapeInv(s) && QuietEvent(s, e)
    ensures Measure(Perform(s, e)) < Measure(s)
  {
    if e.Schedule? {
      ScheduleWorks(s, e.t);
    } else if e.Steal? || e.SetFlag? || e.Recheck? {
      EmptyWorks(s, e);
    } else if e.ReverseDone? {
      AllTurned(s, e.t);
      ReversedWorks(s, e.t);
    } else if e.BeginTask? || e.Free? || e.DrainDone? {
      DrainWorks(s, e);
    } else {
      PusherWorks(s, e);
    }
  }

  lemma Nothing(threads: map<Id, Pc>)
    ensures Sum(threads, (pc: Pc) => 0) == 0
  {
    SumCharge(threads, (pc: Pc) => 0, Unpublished, 0);
  }

  /** The batch moves on; only its holder looks at it. */
  lemma BatchSum(s: State, s': State, t: Id)
    requires TokenInv(s) && t in s.threads && t in s'.threads && HoldsToken(s.threads[t])
    requires s'.threads == s.threads[t := s'.threads[t]]
    requires View(s') == View(s).(batch := |s'.batch|, turned := s'.turned)
    requires Weight(View(s'), s'.threads[t]) < Weight(View(s), s.threads[t])
    ensures Left(s') < Left(s)
  {
    Alone(s, t);
    SumMoves(s.threads, t, s'.threads[t], View(s), View(s'), (pc: Pc) => 0);
    Nothing(s.threads - {t});
  }

  lemma BatchMove(s: State, s': State, t: Id)
    requires TokenInv(s) && t in s.threads && t in s'.threads && HoldsToken(s.threads[t])
    requires s'.threads == s.threads[t := s'.threads[t]] && !Unpublished(s'.threads[t])
    requires s'.head == s.head && s'.stack == s.stack && s'.queued == s.queued
    requires Weight(View(s).(batch := |s'.batch|, turned := s'.turned), s'.threads[t]) < Weight(View(s), s.threads[t])
    ensures Measure(s') < Measure(s)
  {
    PendingMove(s, t, s'.threads[t]);
    BatchSum(s, s', t);
  }

  lemma ReverseWorks(s: State, t: Id)
    requires TokenInv(s) && ShapeInv(s) && Enabled(s, ReverseOne(t))
    ensures Measure(DoReverseOne(s, t)) < Measure(s)
  {
    assert PointersOk(s, s.threads[t]);
    ChainEnds(s.heap, s.threads[t].prev, Rest(s));
    BatchMove(s, DoReverseOne(s, t), t);
  }

  lemma EndTaskWorks(s: State, t: Id)
    requires TokenInv(s) && Enabled(s, EndTask(t))
    ensures Measure(DoEndTask(s, t)) < Measure(s)
  {
    BatchMove(s, DoEndTask(s, t), t);
  }

  /** A move of tasks_ can fail every compare-exchange under way: two steps each. */
  ghost function Delay(pc: Pc): nat {
    if Unpublished(pc) then 2 else 0
  }

  lemma PushSums(s: State, e: Event)
    requires PushesNow(s, e)
    ensures Pending(s) > 0 && Pending(Perform(s, e)) == Pending(s) - 1
    ensures Left(Perform(s, e)) + 13 <= Left(s) + 2 * Pending(s)
  {
    var t, s' := e.t, Perform(s, e);
    PendingMove(s, t, Published);
    SumMoves(s.threads, t, Published, View(s), View(s'), Delay);
    SumCharge(s.threads - {t}, Delay, Unpublished, 2);
    CountOut(s.threads, t, Unpublished);
  }

  lemma PushArithmetic(e: nat, full: nat)
    requires e > 0
    ensures Rework(e - 1, 1) + 6 * e <= Rework(e, full) + 2
  {
    assert 2 * (e - 1) * (2 * (e - 1) + 1) == 4 * e * e - 6 * e + 2;
    assert 2 * e * (2 * e + full) == 4 * e * e + 2 * e * full;
    assert 2 * e * full >= 0;
  }

  lemma PushWorks(s: State, e: Event)
    requires PushesNow(s, e) && s.threads[e.t].node != NULL
    ensures Measure(Perform(s, e)) < Measure(s)
  {
    var s' := Perform(s, e);
    PushSums(s, e);
    PushArithmetic(Pending(s), NonEmpty(s));
  }

  lemma StealView(s: State, e: Event)
    requires StealsNow(s, e)
    ensures Perform(s, e).threads == s.threads[e.t := Reversing(NULL, s.head)]
    ensures View(Perform(s, e)) == Outlook(Pending(s), 0, NULL, |s.stack|, 0)
  {
    PendingMove(s, e.t, Reversing(NULL, s.head));
  }

  /** Who holds no batch may find a compare-exchange fail once more. */
  lemma StealDelays(o: Outlook, o': Outlook, pc: Pc)
    requires o'.pending == o.pending && o'.full <= o.full && !InBatch(pc)
    ensures Weight(o', pc) <= Weight(o, pc) + Delay(pc)
  {
  }

  lemma DelaysAddUp(s: State, t: Id)
    requires t in s.threads
    ensures Sum(s.threads - {t}, Delay) <= 2 * Pending(s)
  {
    SumCharge(s.threads - {t}, Delay, Unpublished, 2);
    CountOut(s.threads, t, Unpublished);
  }

  lemma OthersDelayed(s: State, t: Id, o': Outlook)
    requires o' == Outlook(Pending(s), 0, NULL, |s.stack|, 0)
    requires forall u :: u in s.threads && u != t ==> !InBatch(s.threads[u])
    ensures forall u :: u in s.threads && u != t ==> Weight(o', s.threads[u]) <= Weight(View(s), s.threads[u]) + Delay(s.threads[u])
  {
    forall u | u in s.threads && u != t
      ensures Weight(o', s.threads[u]) <= Weight(View(s), s.threads[u]) + Delay(s.threads[u])
    {
      StealDelays(View(s), o', s.threads[u]);
    }
  }

  lemma BatchWeight(o: Outlook, o': Outlook, head: Addr)
    requires o'.pending == o.pending && o'.turned == 0
    ensures Weight(o', Reversing(NULL, head)) == Weight(o, Stealing) + 4 + 4 * o'.batch
  {
  }

  lemma TakenOver(s: State, t: Id, o': Outlook, head: Addr)
    requires t in s.threads && s.threads[t] == Stealing && o' == Outlook(Pending(s), 0, NULL, |s.stack|, 0)
    requires forall u :: u in s.threads && u != t ==> !InBatch(s.threads[u])
    ensures Sum(s.threads[t := Reversing(NULL, head)], Weigh(o')) <= Left(s) + 4 + 4 * |s.stack| + 2 * Pending(s)
  {
    OthersDelayed(s, t, o');
    SumMoves(s.threads, t, Reversing(NULL, head), View(s), o', Delay);
    BatchWeight(View(s), o', head);
    DelaysAddUp(s, t);
  }

  lemma StealSums(s: State, e: Event)
    requires TokenInv(s) && StealsNow(s, e)
    ensures Left(Perform(s, e)) <= Left(s) + 4 + 4 * |s.stack| + 2 * Pending(s)
  {
    StealView(s, e);
    Alone(s, e.t);
    TakenOver(s, e.t, View(Perform(s, e)), s.head);
  }

  lemma StealArithmetic(e: nat)
    ensures Rework(e, 0) + 2 * e == Rework(e, 1)
  {
  }

  lemma StealWorks(s: State, e: Event)
    requires TokenInv(s) && StealsNow(s, e)
    ensures Measure(Perform(s, e)) < Measure(s)
  {
    StealView(s, e);
    StealSums(s, e);
    StealArithmetic(Pending(s));
  }

  lemma StepWorks(s: State, e: Event)
    requires Inv(s) && Enabled(s, e) && !e.Create?
    ensures Measure(Perform(s, e)) < Measure(s)
  {
    if PushesNow(s, e) {
      assert Owns(s, s.threads[e.t], s.threads[e.t].node);
      PushWorks(s, e);
    } else if StealsNow(s, e) {
      StealWorks(s, e);
    } else if e.ReverseOne? {
      ReverseWorks(s, e.t);
    } else if e.EndTask? {
      EndTaskWorks(s, e.t);
    } else {
      QuietWorks(s, e);
    }
  }

  // ----- so the strand comes to rest, with everything executed

  /** A step that hands in nothing new. */
  ghost predicate OldStep(s: State, e: Event, s': State) {
    Step(s, e, s') && !e.Create?
  }

  lemma WeightBound(o: Outlook, pc: Pc)
    requires o.full <= 1
    ensures Weight(o, pc) <= 8 * o.pending + 4 * o.batch + 27
  {
  }

  lemma InNumbers(e: nat, full: nat)
    requires full <= 1
    ensures Rework(e, full) <= 2 * e * (2 * e + 1)
  {
  }

  lemma LeftBound(s: State)
    ensures Left(s) <= (8 * Pending(s) + 4 * |s.batch| + 27) * |s.threads|
  {
    var d := 8 * Pending(s) + 4 * |s.batch| + 27;
    forall t | t in s.threads ensures Weight(View(s), s.threads[t]) <= d {
      WeightBound(View(s), s.threads[t]);
    }
    SumBound(s.threads, Weigh(View(s)), d);
  }

  /** The measure in numbers: quadratic in the pushes under way, linear in everything else. */
  lemma MeasureInNumbers(s: State)
    ensures Measure(s) <= 2 * Pending(s) * (2 * Pending(s) + 1) + 8 * Pending(s) + 4 * |s.stack| + 9
                          + (8 * Pending(s) + 4 * |s.batch| + 27) * |s.threads|
  {
    LeftBound(s);
    InNumbers(Pending(s), NonEmpty(s));
  }

  /** From any point of any run, if nothing new is handed in, at most so many steps can follow. */
  lemma StepsAreBounded(states: seq<State>, events: seq<Event>, i: nat)
    requires Runs.IsRun(Init, Step, states, events) && i < |states|
    requires forall k :: i <= k < |events| ==> !events[k].Create?
    ensures |events| - i <= Measure(states[i])
  {
    RunsKeepInv(states, events);
    forall s, e, s' | Inv(s) && OldStep(s, e, s') ensures Measure(s') < Measure(s) { StepWorks(s, e); }
    forall k | i <= k < |events| ensures OldStep(states[k], events[k], states[k + 1]) { }
    Runs.Descent(OldStep, Inv, Measure, states, events, i, |events|);
  }

  /** Nothing can happen but that a new task is handed in. */
  ghost predicate AtRest(s: State) {
    forall e :: Enabled(s, e) ==> e.Create?
  }

  lemma PusherCanMove(s: State, t: Id)
    requires OwnerInv(s) && t in s.threads && Unpublished(s.threads[t])
    ensures Enabled(s, LoadHead(t)) || Enabled(s, PushExchange(t))
  {
    assert Owns(s, s.threads[t], s.threads[t].node);
  }

  lemma HolderCanMove(s: State, t: Id)
    requires ShapeInv(s) && t in s.threads && InBatch(s.threads[t])
    ensures exists e :: Enabled(s, e) && !e.Create?
  {
    var pc := s.threads[t];
    assert PointersOk(s, pc);
    if pc.Reversing? {
      ChainEnds(s.heap, pc.prev, Rest(s));
      if pc.prev != NULL {
        ChainFirst(s.heap, pc.prev, Rest(s));
      }
      assert if pc.prev == NULL then Enabled(s, ReverseDone(t)) else Enabled(s, ReverseOne(t));
    } else if pc.Draining? {
      assert if pc.stolen == NULL then Enabled(s, DrainDone(t)) else Enabled(s, BeginTask(t));
    } else if pc.Executing? {
      ChainFirst(s.heap, pc.stolen, s.batch);
      assert Enabled(s, EndTask(t));
    } else {
      ChainFirst(s.heap, pc.stolen, [pc.stolen] + s.batch);
      assert Enabled(s, Free(t));
    }
  }

  lemma RestingThread(s: State, t: Id)
    requires Inv(s) && AtRest(s) && t in s.threads
    ensures s.threads[t] == Idle && s.queued == 0
  {
    RestingElsewhere(s, t);
    assert !Enabled(s, TestFlag(t)) && !Enabled(s, Schedule(t)) && !Enabled(s, Start(t)) && !Enabled(s, Steal(t));
    assert !Enabled(s, SetFlag(t)) && !Enabled(s, Recheck(t)) && !Enabled(s, Reclaim(t));
  }

  lemma RestingElsewhere(s: State, t: Id)
    requires Inv(s) && AtRest(s) && t in s.threads
    ensures !Unpublished(s.threads[t]) && !InBatch(s.threads[t])
  {
    if Unpublished(s.threads[t]) {
      PusherCanMove(s, t);
    } else if InBatch(s.threads[t]) {
      HolderCanMove(s, t);
    }
  }

  /** Every push is executed: when a run cannot go on, all tasks pushed have been executed, in that order. */
  lemma EveryPushIsExecuted(states: seq<State>, events: seq<Event>, t: Id)
    requires Runs.IsRun(Init, Step, states, events) && AtRest(states[|states| - 1])
    requires t in states[|states| - 1].threads
    ensures states[|states| - 1].executed == states[|states| - 1].pushed && states[|states| - 1].heap == map[]
  {
    RunsKeepInv(states, events);
    var s := states[|states| - 1];
    assert Inv(s);
    forall u | u in s.threads ensures s.threads[u] == Idle { RestingThread(s, u); }
    RestingThread(s, t);
    RestMeansDone(states, events, |states| - 1);
  }
}
