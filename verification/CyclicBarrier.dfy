/** The cyclic barrier. One event is one stretch of Arrive during which the mutex is held: from acquiring it to the
    next wait or to the end. A waiting thread is asleep until notified, or until it wakes for no reason. */
module CyclicBarriers {
  import opened Counting
  import Histories
  import Runs

  type Id = int

  datatype Pc =
    | Outside
    | AtFilter(asleep: bool)               // in the first loop, waiting for the previous round to leave
    | AtGate(asleep: bool, round: nat)     // counted in waiting_, waiting for its round to fill up

  datatype State = State(
    participants: nat,
    waiting: nat,
    gate: bool,                            // first_filter_
    threads: map<Id, Pc>,
    // history
    entered: nat,                          // arrivals counted so far
    exited: nat,                           // returns from Arrive so far
    rounds: nat)                           // how many times the gate has opened

  datatype Event =
    | Arrive(t: Id)
    | PassFilter(t: Id)
    | PassGate(t: Id)
    | WakeSpuriously(t: Id)

  ghost predicate Init(s: State) {
    && s.waiting == 0 && !s.gate && s.entered == s.exited == s.rounds == 0
    && forall t :: t in s.threads ==> s.threads[t] == Outside
  }

  ghost predicate Enabled(s: State, e: Event) {
    && e.t in s.threads
    && match e
       case Arrive(t) => s.threads[t].Outside?
       case PassFilter(t) => s.threads[t] == AtFilter(false)
       case PassGate(t) => s.threads[t].AtGate? && !s.threads[t].asleep && s.waiting > 0
       case WakeSpuriously(t) => !s.threads[t].Outside? && s.threads[t].asleep
  }

  ghost function Go(s: State, t: Id, pc: Pc): State {
    s.(threads := s.threads[t := pc])
  }

  function Awake(pc: Pc): Pc {
    if pc.Outside? then pc else pc.(asleep := false)
  }

  function AllAwake(threads: map<Id, Pc>): map<Id, Pc> {
    map t | t in threads :: Awake(threads[t])
  }

  /** From the decrement of waiting_ to the end of Arrive. */
  ghost function Leave(s: State, t: Id): State
    requires s.waiting > 0
  {
    var s' := Go(s, t, Outside).(waiting := s.waiting - 1, exited := s.exited + 1);
    if s'.waiting == 0 then s'.(threads := AllAwake(s'.threads), gate := false) else s'
  }

  /** The gate opens for everybody waiting at it. */
  ghost function OpenGate(s: State): State {
    s.(threads := AllAwake(s.threads), gate := true, rounds := s.rounds + 1)
  }

  /** Past the first loop: be counted, and either open the gate and leave, or wait for it. */
  ghost function Enter(s: State, t: Id): State {
    var s' := s.(waiting := s.waiting + 1, entered := s.entered + 1);
    if s'.waiting == s.participants then Leave(OpenGate(s'), t) else Go(s', t, AtGate(true, s.rounds))
  }

  ghost function TryEnter(s: State, t: Id): State {
    if s.gate then Go(s, t, AtFilter(true)) else Enter(s, t)
  }

  ghost function TryLeave(s: State, t: Id): State
    requires t in s.threads && s.threads[t].AtGate? && s.waiting > 0
  {
    if !s.gate then Go(s, t, s.threads[t].(asleep := true)) else Leave(s, t)
  }

  ghost function Perform(s: State, e: Event): State
    requires Enabled(s, e)
  {
    match e
    case Arrive(t) => TryEnter(s, t)
    case PassFilter(t) => TryEnter(s, t)
    case PassGate(t) => TryLeave(s, t)
    case WakeSpuriously(t) => Go(s, t, s.threads[t].(asleep := false))
  }

  ghost predicate Step(s: State, e: Event, s': State) {
    Enabled(s, e) && s' == Perform(s, e)
  }

  // ----- invariant

  ghost function GateCount(threads: map<Id, Pc>): nat {
    Count(threads, (pc: Pc) => pc.AtGate?)
  }

  /** Which round a waiting thread belongs to, and that nobody sleeps while the condition it waits for holds. */
  ghost predicate ThreadOk(s: State, pc: Pc) {
    && (pc.AtGate? ==> pc.round == (if s.gate then s.rounds - 1 else s.rounds))
    && (pc.AtGate? && pc.asleep ==> !s.gate)
    && (pc.AtFilter? && pc.asleep ==> s.gate)
  }

  ghost predicate ThreadsInv(s: State) {
    && s.waiting == GateCount(s.threads)
    && forall t :: t in s.threads ==> ThreadOk(s, s.threads[t])
  }

  /** Arrivals and departures, round by round. */
  ghost predicate Tally(s: State) {
    && s.entered == s.participants * s.rounds + (if s.gate then 0 else s.waiting)
    && s.exited == s.participants * s.rounds - (if s.gate then s.waiting else 0)
    && (s.gate ==> 1 <= s.waiting < s.participants)
    && (!s.gate && s.participants > 0 ==> s.waiting < s.participants)
  }

  ghost predicate Inv(s: State) {
    ThreadsInv(s) && Tally(s)
  }

  lemma AwakeCount(threads: map<Id, Pc>)
    ensures GateCount(AllAwake(threads)) == GateCount(threads)
  {
    var p := (pc: Pc) => pc.AtGate?;
    var after := AllAwake(threads);
    forall t ensures t in Where(after, p) <==> t in Where(threads, p) {
      assert t in after <==> t in threads;
      assert t in threads ==> after[t] == Awake(threads[t]);
    }
    assert Where(after, p) == Where(threads, p);
  }

  lemma GateMove(threads: map<Id, Pc>, t: Id, pc: Pc)
    requires t in threads
    ensures GateCount(threads[t := pc]) + (if threads[t].AtGate? then 1 else 0)
            == GateCount(threads) + (if pc.AtGate? then 1 else 0)
  {
    CountMove(threads, t, pc, (pc: Pc) => pc.AtGate?);
  }

  /** Nobody waits at the gate when the count says so. */
  lemma GateEmpty(threads: map<Id, Pc>)
    requires GateCount(threads) == 0
    ensures forall t :: t in threads ==> !threads[t].AtGate?
  {
    forall t | t in threads ensures !threads[t].AtGate? {
      if threads[t].AtGate? {
        CountSome(threads, t, (pc: Pc) => pc.AtGate?);
      }
    }
  }

  lemma InitHolds(s: State)
    requires Init(s)
    ensures Inv(s)
  {
    CountNone(s.threads, (pc: Pc) => pc.AtGate?);
    assert s.participants * s.rounds == 0;
  }

  /** One participant leaves through the open gate; the last one shuts it. */
  lemma LeaveKeepsInv(s: State, t: Id)
    requires t in s.threads && s.gate && s.waiting > 0
    requires s.waiting == GateCount(s.threads) + (if s.threads[t].AtGate? then 0 else 1)
    requires forall u :: u in s.threads && u != t ==> ThreadOk(s, s.threads[u])
    requires s.entered == s.participants * s.rounds && s.exited == s.participants * s.rounds - s.waiting
    requires s.waiting <= s.participants
    ensures Inv(Leave(s, t))
  {
    var threads := s.threads[t := Outside];
    GateMove(s.threads, t, Outside);
    AwakeCount(threads);
    if s.waiting == 1 {
      GateEmpty(threads);
    }
  }

  lemma EnterKeepsInv(s: State, t: Id)
    requires Inv(s) && t in s.threads && !s.threads[t].AtGate? && !s.gate
    ensures Inv(Enter(s, t))
  {
    var n := s.participants;
    if s.waiting + 1 == n {
      var s' := OpenGate(s.(waiting := s.waiting + 1, entered := s.entered + 1));
      AwakeCount(s.threads);
      assert n * (s.rounds + 1) == n * s.rounds + n;
      LeaveKeepsInv(s', t);
    } else {
      GateMove(s.threads, t, AtGate(true, s.rounds));
    }
  }

  lemma StepKeepsInv(s: State, e: Event, s': State)
    requires Inv(s) && Step(s, e, s')
    ensures Inv(s')
  {
    if !s.gate && (e.Arrive? || e.PassFilter?) {
      EnterKeepsInv(s, e.t);
    } else if s.gate && e.PassGate? {
      LeaveKeepsInv(s, e.t);
    } else {
      GateMove(s.threads, e.t, s'.threads[e.t]);
    }
  }

  lemma RunsKeepInv(states: seq<State>, events: seq<Event>)
    requires Runs.IsRun(Init, Step, states, events)
    ensures forall i :: 0 <= i < |states| ==> Inv(states[i])
  {
    forall s | Init(s) ensures Inv(s) { InitHolds(s); }
    forall s, e, s' | Inv(s) && Step(s, e, s') ensures Inv(s') { StepKeepsInv(s, e, s'); }
    Runs.Invariance(Init, Step, Inv, states, events);
  }

  // ----- what the barrier promises

  /** Whenever the mutex is free, the books balance exactly. */
  lemma ExactTally(states: seq<State>, events: seq<Event>, i: nat)
    requires Runs.IsRun(Init, Step, states, events) && i < |states| && states[i].participants >= 1
    ensures var s := states[i]; var n := s.participants;
            if s.gate then 1 <= s.waiting < n && s.entered == n * s.rounds && s.exited == n * s.rounds - s.waiting
            else s.waiting < n && s.entered == n * s.rounds + s.waiting && s.exited == n * s.rounds
  {
    RunsKeepInv(states, events);
  }

  /** The round a thread takes part in while it is between being counted and returning. */
  ghost function RoundOf(s: State, t: Id): nat
    requires t in s.threads
  {
    if s.threads[t].AtGate? then s.threads[t].round else s.rounds
  }

  /** Nobody returns from a round before all its participants have arrived. */
  lemma NobodyLeavesEarly(states: seq<State>, events: seq<Event>, i: nat)
    requires Runs.IsRun(Init, Step, states, events) && i < |events|
    requires states[i + 1].exited > states[i].exited
    ensures events[i].t in states[i].threads
    ensures states[i + 1].entered == states[i].participants * (RoundOf(states[i], events[i].t) + 1)
  {
    RunsKeepInv(states, events);
    var s, s' := states[i], states[i + 1];
    assert Step(s, events[i], s');
    assert s.participants * (s.rounds + 1) == s.participants * s.rounds + s.participants;
  }

  /** Nobody is counted into a round before every participant of all earlier rounds has returned. */
  lemma NobodyEntersEarly(states: seq<State>, events: seq<Event>, i: nat)
    requires Runs.IsRun(Init, Step, states, events) && i < |events|
    requires states[i + 1].entered > states[i].entered
    ensures states[i].exited == states[i].participants * states[i].rounds
    ensures events[i].t in states[i + 1].threads
    ensures states[i + 1].threads[events[i].t].AtGate? ==> states[i + 1].threads[events[i].t].round == states[i].rounds
  {
    RunsKeepInv(states, events);
    assert Step(states[i], events[i], states[i + 1]);
  }

  /** No wakeup is lost: a sleeper really has to wait, and an open gate has an awake thread about to pass it. */
  lemma NoLostWakeup(states: seq<State>, events: seq<Event>, i: nat)
    requires Runs.IsRun(Init, Step, states, events) && i < |states|
    ensures var s := states[i];
            && (forall t :: t in s.threads && s.threads[t].AtGate? && s.threads[t].asleep ==> !s.gate)
            && (forall t :: t in s.threads && s.threads[t].AtFilter? && s.threads[t].asleep ==> s.gate)
            && (s.gate ==> exists t :: t in s.threads && Enabled(s, PassGate(t)))
  {
    RunsKeepInv(states, events);
    var s := states[i];
    assert forall t :: t in s.threads ==> ThreadOk(s, s.threads[t]);
    if s.gate {
      if forall t :: t in s.threads ==> !s.threads[t].AtGate? {
        CountNone(s.threads, (pc: Pc) => pc.AtGate?);
      } else {
        var t :| t in s.threads && s.threads[t].AtGate?;
        assert Enabled(s, PassGate(t));
      }
    }
  }

  // ----- calls

  ghost function PcOf(s: State, t: Id): Pc {
    if t in s.threads then s.threads[t] else Outside
  }

  /** In this step a call of Arrive gets past the first loop. */
  ghost predicate GetsCounted(s: State, e: Event, s': State) {
    !PcOf(s, e.t).AtGate? && !PcOf(s', e.t).AtFilter?
  }

  /** In this step a call of Arrive returns. */
  ghost predicate Returns(s: State, e: Event, s': State) {
    PcOf(s', e.t).Outside?
  }

  /** The two tallies of the theorems above are what they seem: how many calls have got past the first loop, and how
      many have returned. */
  lemma TalliesCountCalls(states: seq<State>, events: seq<Event>, i: nat)
    requires Runs.IsRun(Init, Step, states, events) && i < |states|
    ensures states[i].entered == Histories.Times(GetsCounted, states, events, 0, i)
    ensures states[i].exited == Histories.Times(Returns, states, events, 0, i)
  {
    forall k | 0 <= k < i
      ensures states[k + 1].entered == states[k].entered + (if GetsCounted(states[k], events[k], states[k + 1]) then 1 else 0)
      ensures states[k + 1].exited == states[k].exited + (if Returns(states[k], events[k], states[k + 1]) then 1 else 0)
    {
      assert Step(states[k], events[k], states[k + 1]);
    }
    Histories.CountsTimes(GetsCounted, (s: State) => s.entered, states, events, 0, i);
    Histories.CountsTimes(Returns, (s: State) => s.exited, states, events, 0, i);
  }

  predicate Asleep(pc: Pc) {
    !pc.Outside? && pc.asleep
  }

  /** What thread t does when it next has the mutex. */
  function NextEvent(pc: Pc, t: Id): Event {
    match pc
    case Outside => Arrive(t)
    case AtFilter(_) => PassFilter(t)
    case AtGate(_, _) => PassGate(t)
  }

  /** A thread that is not asleep can go on. A call gets past the first loop exactly if the gate is shut, and past the
      second exactly if it is open; the call that completes the round returns at once; whoever does not get on sleeps. */
  lemma AwakeGetsOn(states: seq<State>, events: seq<Event>, i: nat, t: Id)
    requires Runs.IsRun(Init, Step, states, events) && i < |states|
    requires t in states[i].threads && !Asleep(states[i].threads[t])
    ensures var s := states[i];
            var e := NextEvent(s.threads[t], t);
            && Enabled(s, e)
            && var s' := Perform(s, e);
               && (s.threads[t].AtGate? ==> PcOf(s', t) == if s.gate then Outside else AtGate(true, s.threads[t].round))
               && (!s.threads[t].AtGate? ==>
                     PcOf(s', t) == if s.gate then AtFilter(true)
                                    else if s.waiting + 1 == s.participants then Outside
                                    else AtGate(true, s.rounds))
  {
    RunsKeepInv(states, events);
    var s := states[i];
    if s.threads[t].AtGate? {
      CountSome(s.threads, t, (pc: Pc) => pc.AtGate?);
    }
  }

  /** The barrier as an object, one method per stretch of Arrive under the mutex. */
  class CyclicBarrier {
    const participants: nat
    var waiting: nat
    var firstFilter: bool
    var threads: map<Id, Pc>
    var rounds: nat
    ghost var entered: nat
    ghost var exited: nat

    ghost function View(): State
      reads this
    {
      State(participants, waiting, firstFilter, threads, entered, exited, rounds)
    }

    ghost predicate Valid()
      reads this
    {
      Inv(View())
    }

    constructor (participants: nat, ids: set<Id>)
      ensures Valid() && Init(View()) && this.participants == participants && threads.Keys == ids
    {
      this.participants := participants;
      waiting, firstFilter, rounds := 0, false, 0;
      threads := map t | t in ids :: Outside;
      entered, exited := 0, 0;
      new;
      InitHolds(View());
    }

    method NotifyAll()
      modifies `threads
      ensures threads == AllAwake(old(threads))
    {
      threads := map t | t in threads :: Awake(threads[t]);
    }

    method LeaveRound(t: Id)
      requires t in threads && waiting > 0
      modifies this
      ensures View() == Leave(old(View()), t)
    {
      threads := threads[t := Outside];
      waiting := waiting - 1;
      exited := exited + 1;
      if waiting == 0 {
        NotifyAll();
        firstFilter := false;
      }
    }

    /** The first loop and, if it is passed, the count: `left` says the call has returned. */
    method TryArrive(t: Id) returns (left: bool)
      requires t in threads
      modifies this
      ensures View() == TryEnter(old(View()), t)
      ensures left <==> !old(firstFilter) && old(waiting) + 1 == participants
    {
      left := false;
      if firstFilter {
        threads := threads[t := AtFilter(true)];
      } else {
        waiting := waiting + 1;
        entered := entered + 1;
        if waiting == participants {
          firstFilter := true;
          rounds := rounds + 1;
          NotifyAll();
          LeaveRound(t);
          left := true;
        } else {
          threads := threads[t := AtGate(true, rounds)];
        }
      }
    }

    method Arrive(t: Id) returns (left: bool)
      requires Valid() && Enabled(View(), Event.Arrive(t))
      modifies this
      ensures Valid() && View() == Perform(old(View()), Event.Arrive(t))
      ensures left ==> entered == participants * rounds
    {
      left := TryArrive(t);
      StepKeepsInv(old(View()), Event.Arrive(t), View());
    }

    method PassFilter(t: Id) returns (left: bool)
      requires Valid() && Enabled(View(), Event.PassFilter(t))
      modifies this
      ensures Valid() && View() == Perform(old(View()), Event.PassFilter(t))
      ensures left ==> entered == participants * rounds
    {
      left := TryArrive(t);
      StepKeepsInv(old(View()), Event.PassFilter(t), View());
    }

    method PassGate(t: Id) returns (left: bool)
      requires Valid() && Enabled(View(), Event.PassGate(t))
      modifies this
      ensures Valid() && View() == Perform(old(View()), Event.PassGate(t))
      ensures left <==> old(firstFilter)
    {
      left := firstFilter;
      if firstFilter {
        LeaveRound(t);
      } else {
        threads := threads[t := AtGate(true, threads[t].round)];
      }
      StepKeepsInv(old(View()), Event.PassGate(t), View());
    }

    method WakeSpuriously(t: Id)
      requires Valid() && Enabled(View(), Event.WakeSpuriously(t))
      modifies this
      ensures Valid() && View() == Perform(old(View()), Event.WakeSpuriously(t))
    {
      threads := threads[t := Awake(threads[t])];
      StepKeepsInv(old(View()), Event.WakeSpuriously(t), View());
    }
  }
}
