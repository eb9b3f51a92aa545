/** FirstOf: the first value of many futures, or the last error when all of them fail. Each input is a shared state of
    its own: its producer and its subscription meet as in SharedStates. The callbacks run in any order and at the same
    time, and may run before the combining loop has reached the last input. */
module FirstOfCombinators {
  import Histories
  import opened Results
  import M = SharedStates
  import opened Sums
  import Runs

  /** One input's callback, by its next action. */
  datatype Pc =
    | Outside                              // not subscribed yet
    | Subscribed
    | Decrementing                         // an error: about to subtract from errors_left_
    | LastError                            // nobody is left: about to set the promise
    | ErrorDone
    | Exchanging                           // a value: about to exchange nobody_is_ready_
    | First                                // exchange won, about to set the promise
    | ValueDone

  datatype State = State(
    inputs: seq<Result>,                   // what each input future gets
    cells: seq<M.Cell>,                    // the inputs' shared states
    pcs: seq<Pc>,
    looped: nat,                           // inputs the combining loop has passed
    nobodyIsReady: bool,
    errorsLeft: int,
    // history
    sets: seq<Result>,                     // calls of Set on the promise
    exchanges: seq<nat>,                   // inputs with values in the order of their exchange
    failures: seq<nat>)                    // failed inputs in the order of their subtraction

  datatype Event =
    | Acquire
    | Complete(i: nat)                     // somebody completes input i
    | Meet(i: nat, a: M.Action)            // inside its SetResult or SetCallback
    | Deliver(i: nat)                      // the executor runs its callback
    | Subtract(i: nat)
    | SetError(i: nat)
    | Exchange(i: nat)
    | SetValue(i: nat)

  ghost predicate Init(s: State) {
    && |s.pcs| == |s.inputs| == |s.cells|
    && (forall i :: 0 <= i < |s.cells| ==> s.cells[i] == M.NEW_CELL)
    && (forall i :: 0 <= i < |s.pcs| ==> s.pcs[i] == Outside)
    && s.looped == 0 && s.nobodyIsReady && s.errorsLeft == |s.inputs|
    && s.sets == [] && s.exchanges == [] && s.failures == []
  }

  ghost function PcAt(s: State, i: nat): Pc {
    if i < |s.pcs| then s.pcs[i] else Outside
  }

  ghost predicate Enabled(s: State, e: Event) {
    && |s.pcs| == |s.inputs| == |s.cells|
    && match e
       case Acquire => s.looped < |s.inputs| && M.CanAct(s.cells[s.looped], M.SetCallback)
       case Complete(i) => i < |s.inputs| && M.CanWrite(s.cells[i])
       case Meet(i, a) => i < |s.inputs| && a != M.SetCallback && M.CanAct(s.cells[i], a)
       case Deliver(i) => PcAt(s, i).Subscribed? && M.CanRun(s.cells[i])
       case Subtract(i) => PcAt(s, i).Decrementing?
       case SetError(i) => PcAt(s, i).LastError?
       case Exchange(i) => PcAt(s, i).Exchanging?
       case SetValue(i) => PcAt(s, i).First?
  }

  function Go(s: State, i: nat, pc: Pc): State
    requires i < |s.pcs|
  {
    s.(pcs := s.pcs[i := pc])
  }

  function Put(s: State, i: nat, c: M.Cell): State
    requires i < |s.cells|
  {
    s.(cells := s.cells[i := c])
  }

  ghost function Perform(s: State, e: Event): State
    requires Enabled(s, e)
  {
    match e
    case Acquire =>
      Go(Put(s, s.looped, M.Act(s.cells[s.looped], M.SetCallback)), s.looped, Subscribed).(looped := s.looped + 1)
    case Complete(i) => Put(s, i, M.WriteResult(s.cells[i], s.inputs[i]))
    case Meet(i, a) => Put(s, i, M.Act(s.cells[i], a))
    case Deliver(i) =>
      var r := s.cells[i].submitted[s.cells[i].ran];
      Go(Put(s, i, M.Run(s.cells[i])), i, if r.Error? then Decrementing else Exchanging)
    case Subtract(i) =>
      Go(s, i, if s.errorsLeft - 1 == 0 then LastError else ErrorDone).
        (errorsLeft := s.errorsLeft - 1, failures := s.failures + [i])
    case SetError(i) => Go(s, i, ErrorDone).(sets := s.sets + [s.inputs[i]])
    case Exchange(i) =>
      Go(s, i, if s.nobodyIsReady then First else ValueDone).(nobodyIsReady := false, exchanges := s.exchanges + [i])
    case SetValue(i) => Go(s, i, ValueDone).(sets := s.sets + [s.inputs[i]])
  }

  ghost predicate Step(s: State, e: Event, s': State) {
    Enabled(s, e) && s' == Perform(s, e)
  }

  // ----- invariant

  function HasFailed(pc: Pc): nat {
    if pc.LastError? || pc.ErrorDone? then 1 else 0
  }

  ghost predicate Shape(s: State) {
    |s.inputs| == |s.pcs| == |s.cells| && s.looped <= |s.inputs|
  }

  /** Input and callback: what is set is the input's result, the subscription is the loop's, one run of the callback. */
  ghost predicate MeetOk(s: State, i: nat)
    requires Shape(s) && i < |s.inputs|
  {
    var c, pc := s.cells[i], s.pcs[i];
    && M.CellInv(c)
    && (c.result.Some? ==> c.result.value == s.inputs[i])
    && (pc.Outside? <==> c.consumer.ToSet?)
    && (c.ran == 0 <==> pc.Outside? || pc.Subscribed?)
  }

  /** An input's callback does what its own result asks for. */
  ghost predicate InputOk(s: State, i: nat)
    requires Shape(s) && i < |s.inputs|
  {
    var pc, r := s.pcs[i], s.inputs[i];
    && (pc.Outside? <==> s.looped <= i)
    && (pc.Decrementing? || pc.LastError? || pc.ErrorDone? ==> r.Error?)
    && (pc.Exchanging? || pc.First? || pc.ValueDone? ==> r.Value?)
    && (pc.First? ==> s.exchanges != [] && s.exchanges[0] == i)
    && (pc.ValueDone? ==> s.exchanges != [])
    && (pc.LastError? ==> |s.failures| == |s.inputs| && s.failures[|s.inputs| - 1] == i)
  }

  ghost predicate CountOk(s: State) {
    && |s.failures| == Total(s.pcs, HasFailed) == |s.inputs| - s.errorsLeft
    && (s.nobodyIsReady <==> s.exchanges == [])
  }

  /** The first value sets the promise. */
  ghost predicate ValueSets(s: State)
    requires Shape(s)
  {
    s.exchanges != [] ==>
      var w := s.exchanges[0];
      && w < |s.inputs| && s.inputs[w].Value?
      && ((s.pcs[w].First? && s.sets == []) || (s.pcs[w].ValueDone? && s.sets == [s.inputs[w]]))
  }

  /** So does the last of all to fail. */
  ghost predicate LastSets(s: State)
    requires Shape(s)
  {
    var n := |s.inputs|;
    |s.failures| == n > 0 ==>
      var l := s.failures[n - 1];
      l < n && ((s.pcs[l].LastError? && s.sets == []) || (s.pcs[l].ErrorDone? && s.sets == [s.inputs[l]]))
  }

  /** Nobody else does. */
  ghost predicate NobodySets(s: State) {
    s.exchanges == [] && (s.inputs == [] || |s.failures| < |s.inputs|) ==> s.sets == []
  }

  ghost predicate SetsOk(s: State)
    requires Shape(s)
  {
    CountOk(s) && ValueSets(s) && LastSets(s) && NobodySets(s)
  }

  ghost predicate Inv(s: State) {
    && Shape(s)
    && (forall i :: 0 <= i < |s.inputs| ==> MeetOk(s, i))
    && (forall i :: 0 <= i < |s.inputs| ==> InputOk(s, i))
    && SetsOk(s)
  }

  lemma InitHolds(s: State)
    requires Init(s)
    ensures Inv(s)
  {
    TotalOfEqual(s.pcs, Outside, HasFailed);
  }

  /** Whose callback, or which turn of the combining loop, an event is. */
  ghost function InputOf(s: State, e: Event): nat {
    if e.Acquire? then s.looped else e.i
  }

  /** As long as some input has not failed, the count is short. */
  lemma NotAllFailed(s: State, i: nat)
    requires i < |s.pcs| && HasFailed(s.pcs[i]) == 0
    ensures Total(s.pcs, HasFailed) < |s.pcs|
  {
    TotalFull(s.pcs, HasFailed);
  }

  lemma MeetStep(s: State, e: Event)
    requires Inv(s) && Enabled(s, e) && Shape(Perform(s, e))
    ensures forall i :: 0 <= i < |s.inputs| ==> MeetOk(Perform(s, e), i)
  {
    var k := InputOf(s, e);
    assert MeetOk(s, k);
    MeetSelf(s, e);
    forall i | 0 <= i < |s.inputs| && i != k ensures MeetOk(Perform(s, e), i) {
      assert MeetOk(s, i);
    }
  }

  lemma MeetSelf(s: State, e: Event)
    requires Shape(s) && Enabled(s, e) && Shape(Perform(s, e)) && InputOf(s, e) < |s.inputs| && MeetOk(s, InputOf(s, e))
    ensures MeetOk(Perform(s, e), InputOf(s, e))
  {
    var c := s.cells[InputOf(s, e)];
    if e.Acquire? {
      M.ActKeepsInv(c, M.SetCallback);
    } else if e.Complete? {
      M.WriteKeepsInv(c, s.inputs[e.i]);
    } else if e.Meet? {
      M.ActKeepsInv(c, e.a);
    } else if e.Deliver? {
      M.NextTask(c);
    }
  }

  lemma SelfStep(s: State, e: Event)
    requires Inv(s) && Enabled(s, e)
    ensures Shape(Perform(s, e)) && InputOf(s, e) < |s.inputs| && InputOk(Perform(s, e), InputOf(s, e))
  {
    assert InputOk(s, InputOf(s, e)) && MeetOk(s, InputOf(s, e));
    if e.Subtract? {
      NotAllFailed(s, e.i);
    } else if e.Deliver? {
      M.NextTask(s.cells[e.i]);
    }
  }

  lemma OtherStep(s: State, e: Event, i: nat)
    requires Inv(s) && Enabled(s, e) && i < |s.inputs| && i != InputOf(s, e) && Shape(Perform(s, e))
    ensures InputOk(Perform(s, e), i)
  {
    assert InputOk(s, i) && InputOk(s, InputOf(s, e));
    if e.Subtract? {
      NotAllFailed(s, e.i);
    }
  }

  lemma InputsStep(s: State, e: Event)
    requires Inv(s) && Enabled(s, e)
    ensures Shape(Perform(s, e)) && forall i :: 0 <= i < |s.inputs| ==> InputOk(Perform(s, e), i)
  {
    SelfStep(s, e);
    forall i | 0 <= i < |s.inputs| && i != InputOf(s, e) ensures InputOk(Perform(s, e), i) {
      OtherStep(s, e, i);
    }
  }

  lemma CountStep(s: State, e: Event)
    requires Shape(s) && CountOk(s) && Enabled(s, e) && InputOf(s, e) < |s.inputs| && Shape(Perform(s, e))
    requires InputOk(s, InputOf(s, e))
    ensures CountOk(Perform(s, e))
  {
    var i := InputOf(s, e);
    TotalUpdate(s.pcs, i, Perform(s, e).pcs[i], HasFailed);
    assert s.pcs[i := s.pcs[i]] == s.pcs;
  }

  /** A full count excludes values. */
  lemma FullCount(s: State)
    requires Shape(s) && (forall i :: 0 <= i < |s.inputs| ==> InputOk(s, i)) && CountOk(s)
    ensures |s.failures| <= |s.inputs|
    ensures |s.failures| == |s.inputs| ==>
              forall i :: 0 <= i < |s.inputs| ==> s.inputs[i].Error? && HasFailed(s.pcs[i]) == 1
  {
    TotalFull(s.pcs, HasFailed);
    if |s.failures| == |s.inputs| {
      forall i | 0 <= i < |s.inputs| ensures s.inputs[i].Error? && HasFailed(s.pcs[i]) == 1 {
        assert InputOk(s, i);
      }
    }
  }

  lemma ValueStep(s: State, e: Event)
    requires Shape(s) && SetsOk(s) && Enabled(s, e) && InputOf(s, e) < |s.inputs| && Shape(Perform(s, e))
    requires InputOk(s, InputOf(s, e)) && |s.failures| <= |s.inputs|
    requires |s.failures| == |s.inputs| ==> forall i :: 0 <= i < |s.inputs| ==> s.inputs[i].Error?
    ensures ValueSets(Perform(s, e))
  {
  }

  lemma LastStep(s: State, e: Event)
    requires Shape(s) && SetsOk(s) && Enabled(s, e) && InputOf(s, e) < |s.inputs| && Shape(Perform(s, e))
    requires InputOk(s, InputOf(s, e)) && |s.failures| <= |s.inputs| && InputOk(Perform(s, e), InputOf(s, e))
    requires |s.failures| == |s.inputs| ==> HasFailed(s.pcs[InputOf(s, e)]) == 1
    requires |Perform(s, e).failures| == |s.inputs| ==> forall i :: 0 <= i < |s.inputs| ==> s.inputs[i].Error?
    ensures LastSets(Perform(s, e))
  {
  }

  lemma NobodyStep(s: State, e: Event)
    requires Shape(s) && SetsOk(s) && Enabled(s, e) && InputOf(s, e) < |s.inputs| && InputOk(s, InputOf(s, e))
    ensures NobodySets(Perform(s, e))
  {
  }

  lemma SetsStep(s: State, e: Event)
    requires Inv(s) && Enabled(s, e) && Shape(Perform(s, e)) && InputOf(s, e) < |s.inputs|
    requires forall i :: 0 <= i < |s.inputs| ==> InputOk(Perform(s, e), i)
    ensures SetsOk(Perform(s, e))
  {
    assert InputOk(s, InputOf(s, e));
    CountStep(s, e);
    FullCount(s);
    FullCount(Perform(s, e));
    ValueStep(s, e);
    LastStep(s, e);
    NobodyStep(s, e);
  }

  lemma StepKeepsInv(s: State, e: Event, s': State)
    requires Inv(s) && Step(s, e, s')
    ensures Inv(s')
  {
    SelfStep(s, e);
    InputsStep(s, e);
    MeetStep(s, e);
    SetsStep(s, e);
  }

  lemma RunsKeepInv(states: seq<State>, events: seq<Event>)
    requires Runs.IsRun(Init, Step, states, events)
    ensures forall i :: 0 <= i < |states| ==> Inv(states[i])
  {
    forall s | Init(s) ensures Inv(s) { InitHolds(s); }
    forall s, e, s' | Inv(s) && Step(s, e, s') ensures Inv(s') { StepKeepsInv(s, e, s'); }
    Runs.Invariance(Init, Step, Inv, states, events);
  }

  // ----- what the combinator promises, on every run

  ghost predicate AllErrors(inputs: seq<Result>) {
    forall k :: 0 <= k < |inputs| ==> inputs[k].Error?
  }

  /** The value whose callback exchanged nobody_is_ready_ first, or the error that was the last of all to be counted. */
  ghost predicate RightOutcome(s: State, r: Result) {
    if r.Value? then s.exchanges != [] && s.exchanges[0] < |s.inputs| && s.inputs[s.exchanges[0]] == r
    else
      && AllErrors(s.inputs) && |s.failures| == |s.inputs| > 0
      && s.failures[|s.inputs| - 1] < |s.inputs| && s.inputs[s.failures[|s.inputs| - 1]] == r
  }

  lemma AllFailed(s: State)
    requires Inv(s) && |s.failures| == |s.inputs|
    ensures AllErrors(s.inputs)
  {
    TotalFull(s.pcs, HasFailed);
    forall k | 0 <= k < |s.inputs| ensures s.inputs[k].Error? {
      assert InputOk(s, k) && HasFailed(s.pcs[k]) == 1;
    }
  }

  lemma SetsAreRight(s: State)
    requires Inv(s)
    ensures |s.sets| <= 1
    ensures s.sets != [] ==> RightOutcome(s, s.sets[0])
  {
    TotalFull(s.pcs, HasFailed);
    if |s.failures| == |s.inputs| {
      AllFailed(s);
    }
  }

  /** The promise is set at most once: with the first value, or with the last error and then only if all failed. */
  lemma SetsAtMostOnce(states: seq<State>, events: seq<Event>, i: nat)
    requires Runs.IsRun(Init, Step, states, events) && i < |states|
    ensures |states[i].sets| <= 1 && (states[i].sets != [] ==> RightOutcome(states[i], states[i].sets[0]))
  {
    RunsKeepInv(states, events);
    SetsAreRight(states[i]);
  }

  /** The loop is over, every callback has returned. */
  ghost predicate Quiet(s: State) {
    forall e :: !Enabled(s, e)
  }

  /** The loop can always go on. */
  lemma LoopGoesOn(s: State)
    requires Inv(s)
    ensures s.looped < |s.inputs| ==> Enabled(s, Acquire)
  {
    if s.looped < |s.inputs| {
      assert InputOk(s, s.looped) && MeetOk(s, s.looped);
    }
  }

  lemma QuietInput(s: State, i: nat)
    requires Inv(s) && Quiet(s) && i < |s.inputs|
    ensures s.pcs[i].ErrorDone? || s.pcs[i].ValueDone?
  {
    assert InputOk(s, i) && MeetOk(s, i);
    LoopGoesOn(s);
    assert !Enabled(s, Acquire);
    if s.pcs[i].Subscribed? {
      var c := s.cells[i];
      assert !Enabled(s, Complete(i)) && !Enabled(s, Deliver(i));
      forall a ensures !M.CanAct(c, a) { assert !Enabled(s, Meet(i, a)); }
      M.QuietCell(c);
    }
    assert !Enabled(s, Subtract(i)) && !Enabled(s, SetError(i)) && !Enabled(s, Exchange(i)) && !Enabled(s, SetValue(i));
  }

  /** Once every input is complete the promise has been set exactly once if there was any input at all, and never if
      there was none: FirstOf of nothing has a future that is never completed. */
  lemma CompleteRunsSet(states: seq<State>, events: seq<Event>)
    requires Runs.IsRun(Init, Step, states, events) && Quiet(states[|states| - 1])
    ensures var s := states[|states| - 1];
            && (|s.sets| == 1 <==> s.inputs != []) && |s.sets| <= 1
            && (s.inputs != [] ==> RightOutcome(s, s.sets[0]) && (s.sets[0].Error? <==> AllErrors(s.inputs)))
  {
    RunsKeepInv(states, events);
    var s := states[|states| - 1];
    assert Inv(s);
    SetsAreRight(s);
    forall i | 0 <= i < |s.inputs| ensures s.pcs[i].ErrorDone? || s.pcs[i].ValueDone? { QuietInput(s, i); }
    if s.exchanges == [] {
      forall i | 0 <= i < |s.inputs| ensures s.pcs[i].ErrorDone? { assert InputOk(s, i); }
      TotalFull(s.pcs, HasFailed);
    }
  }

  // ----- in terms of events

  ghost function ExchangedBy(s: State, e: Event, s': State): seq<nat> {
    if e.Exchange? then [e.i] else []
  }

  ghost function SubtractedBy(s: State, e: Event, s': State): seq<nat> {
    if e.Subtract? then [e.i] else []
  }

  /** Who won which race is decided by the order of the exchanges and subtractions in the run, and the inputs are given
      what they were to be given at the start. */
  lemma {:induction false} OrdersAreEventOrders(states: seq<State>, events: seq<Event>, i: nat)
    requires Runs.IsRun(Init, Step, states, events) && i < |states|
    ensures states[i].exchanges == Histories.Gathered(ExchangedBy, states, events, 0, i)
    ensures states[i].failures == Histories.Gathered(SubtractedBy, states, events, 0, i)
    ensures states[i].inputs == states[0].inputs
  {
    if i > 0 {
      OrdersAreEventOrders(states, events, i - 1);
      assert Step(states[i - 1], events[i - 1], states[i - 1 + 1]);
    }
  }

  /** What input i's callback does next. */
  function NextEvent(pc: Pc, i: nat): Event {
    match pc
    case Outside => Acquire
    case Subscribed => Deliver(i)
    case Decrementing => Subtract(i)
    case LastError => SetError(i)
    case ErrorDone => SetError(i)
    case Exchanging => Exchange(i)
    case First => SetValue(i)
    case ValueDone => SetValue(i)
  }

  predicate Done(pc: Pc) {
    pc.ErrorDone? || pc.ValueDone?
  }

  /** No callback ever waits for another input: once it has been handed to the executor it can take every step up to
      its end. Once any with a value has ended, the promise has a value or is about to get it from the one that won
      the exchange. */
  lemma NobodyWaits(states: seq<State>, events: seq<Event>, i: nat, k: nat)
    requires Runs.IsRun(Init, Step, states, events) && i < |states| && k < |states[i].pcs|
    ensures var s := states[i];
            && k < |s.cells|
            && (!s.pcs[k].Outside? && !Done(s.pcs[k]) && (s.pcs[k].Subscribed? ==> s.cells[k].submitted != []) ==>
                  var e := NextEvent(s.pcs[k], k);
                  Enabled(s, e) && PcAt(Perform(s, e), k) != s.pcs[k])
            && (s.pcs[k].ValueDone? ==>
                  s.sets != [] || (s.exchanges != [] && PcAt(s, s.exchanges[0]).First?))
  {
    RunsKeepInv(states, events);
    assert MeetOk(states[i], k) && InputOk(states[i], k);
  }

  // ----- every run ends

  function PcLeft(pc: Pc): nat {
    match pc
    case Outside => 4
    case Subscribed => 3
    case Decrementing => 2
    case LastError => 1
    case ErrorDone => 0
    case Exchanging => 2
    case First => 1
    case ValueDone => 0
  }

  ghost function Left(s: State): nat {
    Total(s.pcs, PcLeft) + Total(s.cells, M.CellLeft)
  }

  lemma CallbackWork(s: State, e: Event)
    requires Shape(s) && Enabled(s, e) && InputOf(s, e) < |s.inputs| && InputOk(s, InputOf(s, e))
    requires !e.Complete? && !e.Meet?
    ensures Total(Perform(s, e).pcs, PcLeft) < Total(s.pcs, PcLeft)
  {
    TotalUpdate(s.pcs, InputOf(s, e), Perform(s, e).pcs[InputOf(s, e)], PcLeft);
  }

  lemma CellMoves(s: State, e: Event)
    requires Shape(s) && Enabled(s, e) && InputOf(s, e) < |s.inputs| && MeetOk(s, InputOf(s, e))
    ensures var k := InputOf(s, e);
            && |Perform(s, e).cells| == |s.cells|
            && Perform(s, e).cells == s.cells[k := Perform(s, e).cells[k]]
            && M.CellLeft(Perform(s, e).cells[k]) <= M.CellLeft(s.cells[k])
            && (e.Complete? || e.Meet? ==> M.CellLeft(Perform(s, e).cells[k]) < M.CellLeft(s.cells[k]))
  {
    var k := InputOf(s, e);
    if e.Deliver? {
      M.NextTask(s.cells[k]);
    }
    assert s.cells[k := s.cells[k]] == s.cells;
  }

  lemma CellWork(s: State, e: Event)
    requires Shape(s) && Enabled(s, e) && InputOf(s, e) < |s.inputs| && MeetOk(s, InputOf(s, e))
    ensures Total(Perform(s, e).cells, M.CellLeft) <= Total(s.cells, M.CellLeft)
    ensures e.Complete? || e.Meet? ==> Total(Perform(s, e).cells, M.CellLeft) < Total(s.cells, M.CellLeft)
  {
    CellMoves(s, e);
    TotalUpdate(s.cells, InputOf(s, e), Perform(s, e).cells[InputOf(s, e)], M.CellLeft);
  }

  lemma StepWorks(s: State, e: Event)
    requires Inv(s) && Enabled(s, e)
    ensures Left(Perform(s, e)) < Left(s)
  {
    SelfStep(s, e);
    assert InputOk(s, InputOf(s, e)) && MeetOk(s, InputOf(s, e));
    CellWork(s, e);
    if !e.Complete? && !e.Meet? {
      CallbackWork(s, e);
    }
  }

  /** Every run ends, after at most fifteen steps for each input. */
  lemma RunsAreBounded(states: seq<State>, events: seq<Event>)
    requires Runs.IsRun(Init, Step, states, events)
    ensures |events| <= 15 * |states[0].inputs|
  {
    RunsKeepInv(states, events);
    forall s, e, s' | Inv(s) && Step(s, e, s') ensures Left(s') < Left(s) { StepWorks(s, e); }
    Runs.Descent(Step, Inv, Left, states, events, 0, |events|);
    TotalOfEqual(states[0].pcs, Outside, PcLeft);
    TotalOfEqual(states[0].cells, M.NEW_CELL, M.CellLeft);
  }

  /** The combinator as an object, one method per atomic access of Acquire and Release. */
  class FirstOfCombinator {
    const inputs: seq<Result>
    var cells: seq<M.Cell>
    var pcs: seq<Pc>
    var looped: nat
    var nobodyIsReady: bool
    var errorsLeft: int
    ghost var sets: seq<Result>
    ghost var exchanges: seq<nat>
    ghost var failures: seq<nat>

    ghost function View(): State
      reads this
    {
      State(inputs, cells, pcs, looped, nobodyIsReady, errorsLeft, sets, exchanges, failures)
    }

    ghost predicate Valid()
      reads this
    {
      Inv(View())
    }

    constructor (inputs: seq<Result>)
      ensures Valid() && Init(View()) && this.inputs == inputs
    {
      this.inputs := inputs;
      cells := seq(|inputs|, _ => M.NEW_CELL);
      pcs := seq(|inputs|, _ => Outside);
      looped, nobodyIsReady, errorsLeft := 0, true, |inputs|;
      sets, exchanges, failures := [], [], [];
      new;
      InitHolds(View());
    }

    method Acquire()
      requires Valid() && Enabled(View(), Event.Acquire)
      modifies this
      ensures Valid() && View() == Perform(old(View()), Event.Acquire)
    {
      cells := cells[looped := M.Act(cells[looped], M.SetCallback)];
      pcs := pcs[looped := Subscribed];
      looped := looped + 1;
      StepKeepsInv(old(View()), Event.Acquire, View());
    }

    /** The loop of Combine, when nobody interrupts it. */
    method Combine()
      requires Valid() && looped == 0
      modifies this
      ensures Valid() && looped == |inputs| && errorsLeft == old(errorsLeft) && sets == old(sets)
      ensures forall i :: 0 <= i < |inputs| ==> pcs[i] == Subscribed
    {
      while looped < |inputs|
        invariant Valid() && looped <= |inputs|
        invariant forall i :: 0 <= i < looped ==> pcs[i] == Subscribed
        invariant errorsLeft == old(errorsLeft) && sets == old(sets)
      {
        LoopGoesOn(View());
        Acquire();
      }
    }

    /** SetResult of input i begins. */
    method Complete(i: nat)
      requires Valid() && Enabled(View(), Event.Complete(i))
      modifies this
      ensures Valid() && View() == Perform(old(View()), Event.Complete(i))
    {
      cells := cells[i := M.WriteResult(cells[i], inputs[i])];
      StepKeepsInv(old(View()), Event.Complete(i), View());
    }

    method Meet(i: nat, a: M.Action)
      requires Valid() && Enabled(View(), Event.Meet(i, a))
      modifies this
      ensures Valid() && View() == Perform(old(View()), Event.Meet(i, a))
    {
      cells := cells[i := M.Act(cells[i], a)];
      StepKeepsInv(old(View()), Event.Meet(i, a), View());
    }

    /** The callback runs, and goes by the input's own result. */
    method Deliver(i: nat)
      requires Valid() && Enabled(View(), Event.Deliver(i))
      modifies this
      ensures Valid() && View() == Perform(old(View()), Event.Deliver(i))
      ensures i < |pcs| == |inputs| && (if inputs[i].Error? then pcs[i].Decrementing? else pcs[i].Exchanging?)
    {
      var r := cells[i].submitted[cells[i].ran];
      cells := cells[i := M.Run(cells[i])];
      pcs := pcs[i := if r.Error? then Decrementing else Exchanging];
      StepKeepsInv(old(View()), Event.Deliver(i), View());
      assert InputOk(View(), i);
    }

    method Subtract(i: nat) returns (last: bool)
      requires Valid() && Enabled(View(), Event.Subtract(i))
      modifies this
      ensures Valid() && View() == Perform(old(View()), Event.Subtract(i))
      ensures last ==> AllErrors(inputs) && sets == []
    {
      errorsLeft := errorsLeft - 1;
      last := errorsLeft == 0;
      pcs := pcs[i := if last then LastError else ErrorDone];
      failures := failures + [i];
      StepKeepsInv(old(View()), Event.Subtract(i), View());
      if last {
        AllFailed(View());
      }
    }

    method SetError(i: nat) returns (r: Result)
      requires Valid() && Enabled(View(), Event.SetError(i))
      modifies this
      ensures Valid() && View() == Perform(old(View()), Event.SetError(i))
      ensures old(sets) == [] && sets == [r] && r.Error?
    {
      assert InputOk(View(), i);
      r := inputs[i];
      sets := sets + [r];
      pcs := pcs[i := ErrorDone];
      StepKeepsInv(old(View()), Event.SetError(i), View());
    }

    method Exchange(i: nat) returns (won: bool)
      requires Valid() && Enabled(View(), Event.Exchange(i))
      modifies this
      ensures Valid() && View() == Perform(old(View()), Event.Exchange(i))
      ensures won ==> sets == [] && exchanges == [i]
    {
      won := nobodyIsReady;
      nobodyIsReady := false;
      pcs := pcs[i := if won then First else ValueDone];
      exchanges := exchanges + [i];
      StepKeepsInv(old(View()), Event.Exchange(i), View());
    }

    method SetValue(i: nat) returns (r: Result)
      requires Valid() && Enabled(View(), Event.SetValue(i))
      modifies this
      ensures Valid() && View() == Perform(old(View()), Event.SetValue(i))
      ensures old(sets) == [] && sets == [r] && r.Value?
    {
      assert InputOk(View(), i);
      r := inputs[i];
      sets := sets + [r];
      pcs := pcs[i := ValueDone];
      StepKeepsInv(old(View()), Event.SetValue(i), View());
    }
  }
}
