/** All: one future for the values of many, or for the first error. Each input is a shared state of its own: its producer
    and its subscription meet as in SharedStates. The callbacks run in any order and at the same time, and may run
    before the combining loop has reached the last input. */
module AllCombinators {
  import Histories
  import opened Lists
  import opened Results
  import M = SharedStates
  import opened Sums
  import Runs

  /** One input's callback, by its next action. */
  datatype Pc =
    | Outside                              // not subscribed yet
    | Subscribed(number: nat)
    | Failing(error: int)                  // about to exchange exited_
    | Winning(error: int)                  // exchange won, about to set the promise
    | Failed
    | Storing(number: nat, value: int)     // about to write its slot of ans_
    | Adding                               // about to add to finished_
    | Collecting                           // the last one, about to read ans_ and set the promise
    | Counted

  datatype Outcome = Values(values: seq<int>) | Failure(error: int)

  datatype State = State(
    inputs: seq<Result>,                   // what each input future gets
    cells: seq<M.Cell>,                    // the inputs' shared states
    pcs: seq<Pc>,
    looped: nat,                           // inputs the combining loop has passed
    acquired: nat,
    ans: seq<Option<int>>,
    finished: nat,
    exited: bool,
    // history
    sets: seq<Outcome>,                    // calls of Set on the promise
    exchanges: seq<nat>,                   // failing inputs in the order of their exchange of exited_
    additions: seq<nat>)                   // other inputs in the order of their addition to finished_

  datatype Event =
    | Acquire
    | Complete(i: nat)                     // somebody completes input i
    | Meet(i: nat, a: M.Action)            // inside its SetResult or SetCallback
    | Deliver(i: nat)                      // the executor runs its callback
    | Exchange(i: nat)
    | SetError(i: nat)
    | Store(i: nat)
    | Add(i: nat)
    | Collect(i: nat)

  ghost predicate Init(s: State) {
    && s.inputs != []
    && |s.pcs| == |s.ans| == |s.inputs| == |s.cells|
    && (forall i :: 0 <= i < |s.cells| ==> s.cells[i] == M.NEW_CELL)
    && (forall i :: 0 <= i < |s.pcs| ==> s.pcs[i] == Outside)
    && (forall i :: 0 <= i < |s.ans| ==> s.ans[i] == None)
    && s.looped == s.acquired == s.finished == 0 && !s.exited
    && s.sets == [] && s.exchanges == [] && s.additions == []
  }

  ghost function PcAt(s: State, i: nat): Pc {
    if i < |s.pcs| then s.pcs[i] else Outside
  }

  ghost predicate AllStored(ans: seq<Option<int>>) {
    forall k :: 0 <= k < |ans| ==> ans[k].Some?
  }

  ghost predicate Enabled(s: State, e: Event) {
    match e
    case Acquire => s.looped < |s.inputs| == |s.pcs| == |s.cells| && M.CanAct(s.cells[s.looped], M.SetCallback)
    case Complete(i) => i < |s.inputs| == |s.cells| && M.CanWrite(s.cells[i])
    case Meet(i, a) => i < |s.cells| && a != M.SetCallback && M.CanAct(s.cells[i], a)
    case Deliver(i) => i < |s.cells| && PcAt(s, i).Subscribed? && M.CanRun(s.cells[i])
    case Exchange(i) => PcAt(s, i).Failing?
    case SetError(i) => PcAt(s, i).Winning?
    case Store(i) => PcAt(s, i).Storing? && PcAt(s, i).number < |s.ans|
    case Add(i) => PcAt(s, i).Adding?
    case Collect(i) => PcAt(s, i).Collecting? && AllStored(s.ans)
  }

  function Go(s: State, i: nat, pc: Pc): State
    requires i < |s.pcs|
  {
    s.(pcs := s.pcs[i := pc])
  }

  function Put(s: State, i: nat, c: M.Cell): State
    requires i < |s.cells|
  {
    s.(cells := s.cells[i := c])
  }

  function Collected(ans: seq<Option<int>>): seq<int>
    requires forall k :: 0 <= k < |ans| ==> ans[k].Some?
  {
    seq(|ans|, k requires 0 <= k < |ans| => ans[k].value)
  }

  ghost function Perform(s: State, e: Event): State
    requires Enabled(s, e)
  {
    match e
    case Acquire =>
      Go(Put(s, s.looped, M.Act(s.cells[s.looped], M.SetCallback)), s.looped, Subscribed(s.acquired)).
        (looped := s.looped + 1, acquired := s.acquired + 1)
    case Complete(i) => Put(s, i, M.WriteResult(s.cells[i], s.inputs[i]))
    case Meet(i, a) => Put(s, i, M.Act(s.cells[i], a))
    case Deliver(i) =>
      var r := s.cells[i].submitted[s.cells[i].ran];
      Go(Put(s, i, M.Run(s.cells[i])), i, if r.Error? then Failing(r.error) else Storing(s.pcs[i].number, r.value))
    case Exchange(i) =>
      Go(s, i, if s.exited then Failed else Winning(s.pcs[i].error)).(exited := true, exchanges := s.exchanges + [i])
    case SetError(i) => Go(s, i, Failed).(sets := s.sets + [Failure(s.pcs[i].error)])
    case Store(i) => Go(s, i, Adding).(ans := s.ans[s.pcs[i].number := Some(s.pcs[i].value)])
    case Add(i) =>
      Go(s, i, if s.finished + 1 == |s.inputs| then Collecting else Counted).
        (finished := s.finished + 1, additions := s.additions + [i])
    case Collect(i) => Go(s, i, Counted).(sets := s.sets + [Values(Collected(s.ans))])
  }

  ghost predicate Step(s: State, e: Event, s': State) {
    Enabled(s, e) && s' == Perform(s, e)
  }

  // ----- invariant

  function Added(pc: Pc): nat {
    if pc.Collecting? || pc.Counted? then 1 else 0
  }

  ghost predicate Shape(s: State) {
    |s.inputs| == |s.pcs| == |s.ans| == |s.cells| && |s.inputs| > 0 && s.looped == s.acquired <= |s.inputs|
  }

  /** Input and callback: what is set is the input's result, the subscription is the loop's, one run of the callback. */
  ghost predicate MeetOk(s: State, i: nat)
    requires Shape(s) && i < |s.inputs|
  {
    var c, pc := s.cells[i], s.pcs[i];
    && M.CellInv(c)
    && (c.result.Some? ==> c.result.value == s.inputs[i])
    && (pc.Outside? <==> c.consumer.ToSet?)
    && (c.ran == 0 <==> pc.Outside? || pc.Subscribed?)
  }

  /** An input's callback has its own number and its own result. */
  ghost predicate InputOk(s: State, i: nat)
    requires Shape(s) && i < |s.inputs|
  {
    var pc, r := s.pcs[i], s.inputs[i];
    && (pc.Outside? <==> s.looped <= i)
    && (pc.Subscribed? || pc.Storing? ==> pc.number == i)
    && (pc.Failing? || pc.Winning? ==> r == Error(pc.error))
    && (pc.Failed? ==> r.Error?)
    && (pc.Storing? ==> r == Value(pc.value))
    && (pc.Adding? || pc.Collecting? || pc.Counted? ==> r.Value? && s.ans[i] == Some(r.value))
    && (pc.Winning? ==> s.exchanges != [] && s.exchanges[0] == i)
    && (pc.Failed? ==> i in s.exchanges)
    && (pc.Collecting? ==> |s.additions| == |s.inputs| && s.additions[|s.inputs| - 1] == i)
  }

  ghost predicate CountOk(s: State) {
    s.finished == |s.additions| == Total(s.pcs, Added) && (s.exited <==> s.exchanges != [])
  }

  /** The first failing input sets the promise. */
  ghost predicate ErrorSets(s: State)
    requires Shape(s)
  {
    s.exchanges != [] ==>
      var w := s.exchanges[0];
      && w < |s.inputs| && s.inputs[w].Error?
      && ((s.pcs[w].Winning? && s.sets == []) || (s.pcs[w].Failed? && s.sets == [Failure(s.inputs[w].error)]))
  }

  /** So does the last of all to be counted. */
  ghost predicate LastSets(s: State)
    requires Shape(s)
  {
    var n := |s.inputs|;
    |s.additions| == n ==>
      var l := s.additions[n - 1];
      && l < n && AllStored(s.ans)
      && ((s.pcs[l].Collecting? && s.sets == []) || (s.pcs[l].Counted? && s.sets == [Values(Collected(s.ans))]))
  }

  /** Nobody else does. */
  ghost predicate NobodySets(s: State) {
    s.exchanges == [] && |s.additions| < |s.inputs| ==> s.sets == []
  }

  ghost predicate SetsOk(s: State)
    requires Shape(s)
  {
    CountOk(s) && ErrorSets(s) && LastSets(s) && NobodySets(s)
  }

  ghost predicate Inv(s: State) {
    && Shape(s)
    && (forall i :: 0 <= i < |s.inputs| ==> MeetOk(s, i))
    && (forall i :: 0 <= i < |s.inputs| ==> InputOk(s, i))
    && SetsOk(s)
  }

  lemma InitHolds(s: State)
    requires Init(s)
    ensures Inv(s)
  {
    TotalOfEqual(s.pcs, Outside, Added);
  }

  /** When all have been counted, all inputs have values, each in its slot. */
  lemma AllAdded(s: State)
    requires Shape(s) && (forall i :: 0 <= i < |s.inputs| ==> InputOk(s, i)) && Total(s.pcs, Added) == |s.inputs|
    ensures forall i :: 0 <= i < |s.inputs| ==> s.inputs[i].Value? && s.ans[i] == Some(s.inputs[i].value)
    ensures AllStored(s.ans)
  {
    TotalFull(s.pcs, Added);
    forall i | 0 <= i < |s.inputs| ensures s.inputs[i].Value? && s.ans[i] == Some(s.inputs[i].value) {
      assert InputOk(s, i) && Added(s.pcs[i]) == 1;
    }
  }

  /** Whose callback, or which turn of the combining loop, an event is. */
  ghost function InputOf(s: State, e: Event): nat {
    if e.Acquire? then s.looped else e.i
  }

  /** As long as some input has not been counted, the count is short. */
  lemma NotAllAdded(s: State, i: nat)
    requires i < |s.pcs| && Added(s.pcs[i]) == 0
    ensures Total(s.pcs, Added) < |s.pcs|
  {
    TotalFull(s.pcs, Added);
  }

  lemma MeetStep(s: State, e: Event)
    requires Inv(s) && Enabled(s, e) && Shape(Perform(s, e))
    ensures forall i :: 0 <= i < |s.inputs| ==> MeetOk(Perform(s, e), i)
  {
    var k := InputOf(s, e);
    assert MeetOk(s, k);
    MeetSelf(s, e);
    forall i | 0 <= i < |s.inputs| && i != k ensures MeetOk(Perform(s, e), i) {
      assert MeetOk(s, i);
    }
  }

  lemma MeetSelf(s: State, e: Event)
    requires Shape(s) && Enabled(s, e) && Shape(Perform(s, e)) && InputOf(s, e) < |s.inputs| && MeetOk(s, InputOf(s, e))
    ensures MeetOk(Perform(s, e), InputOf(s, e))
  {
    var c := s.cells[InputOf(s, e)];
    if e.Acquire? {
      M.ActKeepsInv(c, M.SetCallback);
    } else if e.Complete? {
      M.WriteKeepsInv(c, s.inputs[e.i]);
    } else if e.Meet? {
      M.ActKeepsInv(c, e.a);
    } else if e.Deliver? {
      MeetDeliver(s, e.i);
    }
  }

  lemma MeetDeliver(s: State, i: nat)
    requires Shape(s) && Enabled(s, Deliver(i)) && Shape(Perform(s, Deliver(i))) && i < |s.inputs| && MeetOk(s, i)
    ensures MeetOk(Perform(s, Deliver(i)), i)
  {
    M.NextTask(s.cells[i]);
  }

  lemma DeliverSelf(s: State, i: nat)
    requires Shape(s) && Enabled(s, Deliver(i)) && i < |s.inputs| && InputOk(s, i) && MeetOk(s, i)
    ensures Shape(Perform(s, Deliver(i))) && InputOk(Perform(s, Deliver(i)), i)
  {
    M.NextTask(s.cells[i]);
  }

  lemma SelfStep(s: State, e: Event)
    requires Inv(s) && Enabled(s, e)
    ensures Shape(Perform(s, e)) && InputOf(s, e) < |s.inputs| && InputOk(Perform(s, e), InputOf(s, e))
  {
    assert InputOk(s, InputOf(s, e)) && MeetOk(s, InputOf(s, e));
    if e.Deliver? {
      DeliverSelf(s, e.i);
    } else if e.Add? {
      NotAllAdded(s, e.i);
    }
  }

  lemma OtherStep(s: State, e: Event, i: nat)
    requires Inv(s) && Enabled(s, e) && i < |s.inputs| && i != InputOf(s, e) && Shape(Perform(s, e))
    ensures InputOk(Perform(s, e), i)
  {
    assert InputOk(s, i) && InputOk(s, InputOf(s, e));
    if e.Add? {
      NotAllAdded(s, e.i);
    }
  }

  lemma InputsStep(s: State, e: Event)
    requires Inv(s) && Enabled(s, e)
    ensures Shape(Perform(s, e)) && forall i :: 0 <= i < |s.inputs| ==> InputOk(Perform(s, e), i)
  {
    SelfStep(s, e);
    forall i | 0 <= i < |s.inputs| && i != InputOf(s, e) ensures InputOk(Perform(s, e), i) {
      OtherStep(s, e, i);
    }
  }

  lemma CountStep(s: State, e: Event)
    requires Shape(s) && CountOk(s) && Enabled(s, e) && InputOf(s, e) < |s.inputs| && Shape(Perform(s, e))
    requires InputOk(s, InputOf(s, e))
    ensures CountOk(Perform(s, e))
  {
    var i := InputOf(s, e);
    TotalUpdate(s.pcs, i, Perform(s, e).pcs[i], Added);
    assert s.pcs[i := s.pcs[i]] == s.pcs;
  }

  /** A full count excludes errors, and leaves nobody but the last with anything to do. */
  lemma FullCount(s: State)
    requires Shape(s) && (forall i :: 0 <= i < |s.inputs| ==> InputOk(s, i)) && CountOk(s)
    ensures |s.additions| <= |s.inputs|
    ensures |s.additions| == |s.inputs| ==> AllStored(s.ans)
    ensures |s.additions| == |s.inputs| ==>
              forall i :: 0 <= i < |s.inputs| ==> s.inputs[i].Value? && Added(s.pcs[i]) == 1
  {
    TotalFull(s.pcs, Added);
    if |s.additions| == |s.inputs| {
      AllAdded(s);
    }
  }

  lemma ErrorStep(s: State, e: Event)
    requires Shape(s) && SetsOk(s) && Enabled(s, e) && InputOf(s, e) < |s.inputs| && Shape(Perform(s, e))
    requires InputOk(s, InputOf(s, e)) && |s.additions| <= |s.inputs|
    requires |s.additions| == |s.inputs| ==> forall i :: 0 <= i < |s.inputs| ==> s.inputs[i].Value?
    ensures ErrorSets(Perform(s, e))
  {
  }

  lemma LastStep(s: State, e: Event)
    requires Shape(s) && SetsOk(s) && Enabled(s, e) && InputOf(s, e) < |s.inputs| && Shape(Perform(s, e))
    requires InputOk(s, InputOf(s, e)) && |s.additions| <= |s.inputs| && InputOk(Perform(s, e), InputOf(s, e))
    requires |s.additions| == |s.inputs| ==> Added(s.pcs[InputOf(s, e)]) == 1
    requires |Perform(s, e).additions| == |s.inputs| ==>
               AllStored(Perform(s, e).ans) && forall i :: 0 <= i < |s.inputs| ==> s.inputs[i].Value?
    ensures LastSets(Perform(s, e))
  {
  }

  lemma NobodyStep(s: State, e: Event)
    requires Shape(s) && SetsOk(s) && Enabled(s, e) && InputOf(s, e) < |s.inputs| && InputOk(s, InputOf(s, e))
    ensures NobodySets(Perform(s, e))
  {
  }

  lemma SetsStep(s: State, e: Event)
    requires Inv(s) && Enabled(s, e) && Shape(Perform(s, e)) && InputOf(s, e) < |s.inputs|
    requires forall i :: 0 <= i < |s.inputs| ==> InputOk(Perform(s, e), i)
    ensures SetsOk(Perform(s, e))
  {
    assert InputOk(s, InputOf(s, e));
    CountStep(s, e);
    FullCount(s);
    FullCount(Perform(s, e));
    ErrorStep(s, e);
    LastStep(s, e);
    NobodyStep(s, e);
  }

  lemma StepKeepsInv(s: State, e: Event, s': State)
    requires Inv(s) && Step(s, e, s')
    ensures Inv(s')
  {
    SelfStep(s, e);
    InputsStep(s, e);
    MeetStep(s, e);
    SetsStep(s, e);
  }

  lemma RunsKeepInv(states: seq<State>, events: seq<Event>)
    requires Runs.IsRun(Init, Step, states, events)
    ensures forall i :: 0 <= i < |states| ==> Inv(states[i])
  {
    forall s | Init(s) ensures Inv(s) { InitHolds(s); }
    forall s, e, s' | Inv(s) && Step(s, e, s') ensures Inv(s') { StepKeepsInv(s, e, s'); }
    Runs.Invariance(Init, Step, Inv, states, events);
  }

  // ----- what the combinator promises, on every run

  ghost predicate AllValues(inputs: seq<Result>) {
    forall k :: 0 <= k < |inputs| ==> inputs[k].Value?
  }

  /** All values in the order of the inputs, or the error whose callback exchanged exited_ first. */
  ghost predicate RightOutcome(s: State, outcome: Outcome) {
    match outcome
    case Values(values) => |values| == |s.inputs| && forall k :: 0 <= k < |s.inputs| ==> s.inputs[k] == Value(values[k])
    case Failure(error) =>
      s.exchanges != [] && s.exchanges[0] < |s.inputs| && s.inputs[s.exchanges[0]] == Error(error)
  }

  lemma SetsAreRight(s: State)
    requires Inv(s)
    ensures |s.sets| <= 1
    ensures s.sets != [] ==> RightOutcome(s, s.sets[0])
    ensures s.sets != [] && s.sets[0].Values? ==> AllValues(s.inputs)
  {
    TotalFull(s.pcs, Added);
    if s.finished == |s.inputs| {
      AllAdded(s);
      var values := Collected(s.ans);
      forall k | 0 <= k < |s.inputs| ensures s.inputs[k] == Value(values[k]) {
        assert s.ans[k] == Some(s.inputs[k].value);
      }
    }
  }

  /** The promise is set at most once, and then rightly. */
  lemma SetsAtMostOnce(states: seq<State>, events: seq<Event>, i: nat)
    requires Runs.IsRun(Init, Step, states, events) && i < |states|
    ensures |states[i].sets| <= 1 && (states[i].sets != [] ==> RightOutcome(states[i], states[i].sets[0]))
  {
    RunsKeepInv(states, events);
    SetsAreRight(states[i]);
  }

  /** The combining loop gives every input its own position as its number, which is where its value goes. */
  lemma NumbersArePositions(states: seq<State>, events: seq<Event>, i: nat, k: nat)
    requires Runs.IsRun(Init, Step, states, events) && i < |states| && k < |states[i].pcs|
    ensures states[i].pcs[k].Subscribed? || states[i].pcs[k].Storing? ==> states[i].pcs[k].number == k
    ensures states[i].pcs[k].Outside? <==> states[i].looped <= k
  {
    RunsKeepInv(states, events);
    assert InputOk(states[i], k);
  }

  /** The loop is over, every callback has returned. */
  ghost predicate Quiet(s: State) {
    forall e :: !Enabled(s, e)
  }

  /** The loop can always go on. */
  lemma LoopGoesOn(s: State)
    requires Inv(s)
    ensures s.looped < |s.inputs| ==> Enabled(s, Acquire)
  {
    if s.looped < |s.inputs| {
      assert InputOk(s, s.looped) && MeetOk(s, s.looped);
    }
  }

  lemma QuietInput(s: State, i: nat)
    requires Inv(s) && Quiet(s) && i < |s.inputs|
    ensures s.pcs[i].Failed? || s.pcs[i].Counted?
  {
    assert InputOk(s, i) && MeetOk(s, i);
    LoopGoesOn(s);
    assert !Enabled(s, Acquire);
    if s.pcs[i].Subscribed? {
      var c := s.cells[i];
      assert !Enabled(s, Complete(i)) && !Enabled(s, Deliver(i));
      forall a ensures !M.CanAct(c, a) { assert !Enabled(s, Meet(i, a)); }
      M.QuietCell(c);
    }
    assert !Enabled(s, Exchange(i)) && !Enabled(s, SetError(i));
    assert !Enabled(s, Store(i)) && !Enabled(s, Add(i)) && !Enabled(s, Collect(i));
  }

  /** Once every input is complete the promise has been set exactly once: with all the values when all are values,
      with the error that won the exchange otherwise. */
  lemma CompleteRunsSet(states: seq<State>, events: seq<Event>)
    requires Runs.IsRun(Init, Step, states, events) && Quiet(states[|states| - 1])
    ensures var s := states[|states| - 1];
            && |s.sets| == 1 && RightOutcome(s, s.sets[0])
            && (s.sets[0].Values? <==> AllValues(s.inputs))
  {
    RunsKeepInv(states, events);
    var s := states[|states| - 1];
    assert Inv(s);
    SetsAreRight(s);
    forall i | 0 <= i < |s.inputs| ensures s.pcs[i].Failed? || s.pcs[i].Counted? { QuietInput(s, i); }
    if !s.exited {
      forall i | 0 <= i < |s.inputs| ensures s.pcs[i].Counted? { assert InputOk(s, i); }
      TotalFull(s.pcs, Added);
    }
  }

  // ----- in terms of events

  ghost function ExchangedBy(s: State, e: Event, s': State): seq<nat> {
    if e.Exchange? then [e.i] else []
  }

  ghost function AddedBy(s: State, e: Event, s': State): seq<nat> {
    if e.Add? then [e.i] else []
  }

  /** Who won which race is decided by the order of the exchanges and additions in the run, and the inputs are given
      what they were to be given at the start. */
  lemma {:induction false} OrdersAreEventOrders(states: seq<State>, events: seq<Event>, i: nat)
    requires Runs.IsRun(Init, Step, states, events) && i < |states|
    ensures states[i].exchanges == Histories.Gathered(ExchangedBy, states, events, 0, i)
    ensures states[i].additions == Histories.Gathered(AddedBy, states, events, 0, i)
    ensures states[i].inputs == states[0].inputs
  {
    if i > 0 {
      OrdersAreEventOrders(states, events, i - 1);
      assert Step(states[i - 1], events[i - 1], states[i - 1 + 1]);
    }
  }

  /** What input i's callback does next. */
  function NextEvent(pc: Pc, i: nat): Event {
    match pc
    case Outside => Acquire
    case Subscribed(_) => Deliver(i)
    case Failing(_) => Exchange(i)
    case Winning(_) => SetError(i)
    case Storing(_, _) => Store(i)
    case Adding => Add(i)
    case Failed => Collect(i)
    case Collecting => Collect(i)
    case Counted => Collect(i)
  }

  predicate Done(pc: Pc) {
    pc.Failed? || pc.Counted?
  }

  /** No callback ever waits for another input: once it has been handed to the executor it can take every step up to
      its end. Once any failing one has ended, the promise has its error or is about to get it from the one that won
      the exchange. */
  lemma NobodyWaits(states: seq<State>, events: seq<Event>, i: nat, k: nat)
    requires Runs.IsRun(Init, Step, states, events) && i < |states| && k < |states[i].pcs|
    ensures var s := states[i];
            && k < |s.cells|
            && (!s.pcs[k].Outside? && !Done(s.pcs[k]) && (s.pcs[k].Subscribed? ==> s.cells[k].submitted != []) ==>
                  var e := NextEvent(s.pcs[k], k);
                  Enabled(s, e) && PcAt(Perform(s, e), k) != s.pcs[k])
            && (s.pcs[k].Failed? ==>
                  s.sets != [] || (s.exchanges != [] && PcAt(s, s.exchanges[0]).Winning?))
  {
    RunsKeepInv(states, events);
    assert MeetOk(states[i], k) && InputOk(states[i], k);
  }

  // ----- every run ends

  function PcLeft(pc: Pc): nat {
    match pc
    case Outside => 5
    case Subscribed(_) => 4
    case Failing(_) => 3
    case Winning(_) => 1
    case Failed => 0
    case Storing(_, _) => 3
    case Adding => 2
    case Collecting => 1
    case Counted => 0
  }

  ghost function Left(s: State): nat {
    Total(s.pcs, PcLeft) + Total(s.cells, M.CellLeft)
  }

  lemma CallbackWork(s: State, e: Event)
    requires Shape(s) && Enabled(s, e) && InputOf(s, e) < |s.inputs| && InputOk(s, InputOf(s, e))
    requires !e.Complete? && !e.Meet?
    ensures Total(Perform(s, e).pcs, PcLeft) < Total(s.pcs, PcLeft)
  {
    TotalUpdate(s.pcs, InputOf(s, e), Perform(s, e).pcs[InputOf(s, e)], PcLeft);
  }

  lemma CellMoves(s: State, e: Event)
    requires Shape(s) && Enabled(s, e) && InputOf(s, e) < |s.inputs| && MeetOk(s, InputOf(s, e))
    ensures var k := InputOf(s, e);
            && |Perform(s, e).cells| == |s.cells|
            && Perform(s, e).cells == s.cells[k := Perform(s, e).cells[k]]
            && M.CellLeft(Perform(s, e).cells[k]) <= M.CellLeft(s.cells[k])
            && (e.Complete? || e.Meet? ==> M.CellLeft(Perform(s, e).cells[k]) < M.CellLeft(s.cells[k]))
  {
    var k := InputOf(s, e);
    if e.Deliver? {
      M.NextTask(s.cells[k]);
    }
    assert s.cells[k := s.cells[k]] == s.cells;
  }

  lemma CellWork(s: State, e: Event)
    requires Shape(s) && Enabled(s, e) && InputOf(s, e) < |s.inputs| && MeetOk(s, InputOf(s, e))
    ensures Total(Perform(s, e).cells, M.CellLeft) <= Total(s.cells, M.CellLeft)
    ensures e.Complete? || e.Meet? ==> Total(Perform(s, e).cells, M.CellLeft) < Total(s.cells, M.CellLeft)
  {
    CellMoves(s, e);
    TotalUpdate(s.cells, InputOf(s, e), Perform(s, e).cells[InputOf(s, e)], M.CellLeft);
  }

  lemma StepWorks(s: State, e: Event)
    requires Inv(s) && Enabled(s, e)
    ensures Left(Perform(s, e)) < Left(s)
  {
    SelfStep(s, e);
    assert InputOk(s, InputOf(s, e)) && MeetOk(s, InputOf(s, e));
    CellWork(s, e);
    if !e.Complete? && !e.Meet? {
      CallbackWork(s, e);
    }
  }

  /** Every run ends, after at most sixteen steps for each input. */
  lemma RunsAreBounded(states: seq<State>, events: seq<Event>)
    requires Runs.IsRun(Init, Step, states, events)
    ensures |events| <= 16 * |states[0].inputs|
  {
    RunsKeepInv(states, events);
    forall s, e, s' | Inv(s) && Step(s, e, s') ensures Left(s') < Left(s) { StepWorks(s, e); }
    Runs.Descent(Step, Inv, Left, states, events, 0, |events|);
    TotalOfEqual(states[0].pcs, Outside, PcLeft);
    TotalOfEqual(states[0].cells, M.NEW_CELL, M.CellLeft);
  }

  /** The combinator as an object, one method per atomic access of Acquire and Release. */
  class AllCombinator {
    const inputs: seq<Result>
    const ans: array<Option<int>>
    var cells: seq<M.Cell>
    var pcs: seq<Pc>
    var looped: nat
    var acquired: nat
    var finished: nat
    var exited: bool
    ghost var sets: seq<Outcome>
    ghost var exchanges: seq<nat>
    ghost var additions: seq<nat>

    ghost function View(): State
      reads this, ans
    {
      State(inputs, cells, pcs, looped, acquired, ans[..], finished, exited, sets, exchanges, additions)
    }

    ghost predicate Valid()
      reads this, ans
    {
      Inv(View())
    }

    constructor (inputs: seq<Result>)
      requires inputs != []
      ensures Valid() && Init(View()) && this.inputs == inputs && fresh(ans)
    {
      this.inputs := inputs;
      ans := new Option<int>[|inputs|](_ => None);
      cells := seq(|inputs|, _ => M.NEW_CELL);
      pcs := seq(|inputs|, _ => Outside);
      looped, acquired, finished, exited := 0, 0, 0, false;
      sets, exchanges, additions := [], [], [];
      new;
      InitHolds(View());
    }

    method Acquire()
      requires Valid() && Enabled(View(), Event.Acquire)
      modifies this
      ensures Valid() && View() == Perform(old(View()), Event.Acquire)
    {
      var number := acquired;
      acquired := acquired + 1;
      cells := cells[looped := M.Act(cells[looped], M.SetCallback)];
      pcs := pcs[looped := Subscribed(number)];
      looped := looped + 1;
      StepKeepsInv(old(View()), Event.Acquire, View());
    }

    /** The loop of Combine, when nobody interrupts it: every input is subscribed under its own position. */
    method Combine()
      requires Valid() && looped == 0
      modifies this
      ensures Valid() && looped == acquired == |inputs|
      ensures forall i :: 0 <= i < |inputs| ==> pcs[i] == Subscribed(i)
      ensures unchanged(`finished) && unchanged(`exited) && sets == old(sets)
    {
      while looped < |inputs|
        invariant Valid() && looped <= |inputs|
        invariant forall i :: 0 <= i < looped ==> pcs[i] == Subscribed(i)
        invariant finished == old(finished) && exited == old(exited) && sets == old(sets)
      {
        LoopGoesOn(View());
        Acquire();
      }
    }

    /** SetResult of input i begins. */
    method Complete(i: nat)
      requires Valid() && Enabled(View(), Event.Complete(i))
      modifies this
      ensures Valid() && View() == Perform(old(View()), Event.Complete(i))
    {
      cells := cells[i := M.WriteResult(cells[i], inputs[i])];
      StepKeepsInv(old(View()), Event.Complete(i), View());
    }

    method Meet(i: nat, a: M.Action)
      requires Valid() && Enabled(View(), Event.Meet(i, a))
      modifies this
      ensures Valid() && View() == Perform(old(View()), Event.Meet(i, a))
    {
      cells := cells[i := M.Act(cells[i], a)];
      StepKeepsInv(old(View()), Event.Meet(i, a), View());
    }

    /** The callback runs, with the input's own result and number. */
    method Deliver(i: nat)
      requires Valid() && Enabled(View(), Event.Deliver(i))
      modifies this
      ensures Valid() && View() == Perform(old(View()), Event.Deliver(i))
      ensures i < |pcs| && (pcs[i].Failing? ==> inputs[i] == Error(pcs[i].error))
      ensures i < |pcs| && (pcs[i].Storing? ==> pcs[i].number == i && inputs[i] == Value(pcs[i].value))
    {
      var r := cells[i].submitted[cells[i].ran];
      cells := cells[i := M.Run(cells[i])];
      pcs := pcs[i := if r.Error? then Failing(r.error) else Storing(pcs[i].number, r.value)];
      StepKeepsInv(old(View()), Event.Deliver(i), View());
      assert InputOk(View(), i);
    }

    method Exchange(i: nat) returns (won: bool)
      requires Valid() && Enabled(View(), Event.Exchange(i))
      modifies this
      ensures Valid() && View() == Perform(old(View()), Event.Exchange(i))
      ensures won ==> sets == [] && exchanges == [i]
    {
      assert InputOk(View(), i);
      won := !exited;
      exited := true;
      pcs := pcs[i := if won then Winning(pcs[i].error) else Failed];
      exchanges := exchanges + [i];
      StepKeepsInv(old(View()), Event.Exchange(i), View());
      assert won ==> SetsOk(View()) && InputOk(View(), i);
    }

    method SetError(i: nat) returns (outcome: Outcome)
      requires Valid() && Enabled(View(), Event.SetError(i))
      modifies this
      ensures Valid() && View() == Perform(old(View()), Event.SetError(i))
      ensures old(sets) == [] && sets == [outcome]
    {
      assert InputOk(View(), i);
      outcome := Failure(pcs[i].error);
      sets := sets + [outcome];
      pcs := pcs[i := Failed];
      StepKeepsInv(old(View()), Event.SetError(i), View());
    }

    method Store(i: nat)
      requires Valid() && Enabled(View(), Event.Store(i))
      modifies this, ans
      ensures Valid() && View() == Perform(old(View()), Event.Store(i))
    {
      var pc := pcs[i];
      ans[pc.number] := Some(pc.value);
      pcs := pcs[i := Adding];
      assert ans[..] == old(ans[..])[pc.number := Some(pc.value)];
      StepKeepsInv(old(View()), Event.Store(i), View());
    }

    method Add(i: nat) returns (last: bool)
      requires Valid() && Enabled(View(), Event.Add(i))
      modifies this
      ensures Valid() && View() == Perform(old(View()), Event.Add(i))
      ensures last ==> AllStored(ans[..]) && sets == []
    {
      finished := finished + 1;
      last := finished == |inputs|;
      pcs := pcs[i := if last then Collecting else Counted];
      additions := additions + [i];
      StepKeepsInv(old(View()), Event.Add(i), View());
      assert InputOk(View(), i);
    }

    /** The last callback reads every slot and sets the promise. */
    method Collect(i: nat) returns (prepare: seq<int>)
      requires Valid() && Enabled(View(), Event.Collect(i))
      modifies this
      ensures Valid() && View() == Perform(old(View()), Event.Collect(i))
      ensures old(sets) == [] && sets == [Values(prepare)]
      ensures |prepare| == |inputs| && forall k :: 0 <= k < |inputs| ==> inputs[k] == Value(prepare[k])
    {
      assert InputOk(View(), i);
      prepare := [];
      var k := 0;
      while k < ans.Length
        invariant 0 <= k <= ans.Length && |prepare| == k
        invariant forall j :: 0 <= j < k ==> prepare[j] == ans[j].value
      {
        assert ans[..][k].Some?;
        prepare := prepare + [ans[k].value];
        k := k + 1;
      }
      assert prepare == Collected(ans[..]);
      pcs := pcs[i := Counted];
      sets := sets + [Values(prepare)];
      StepKeepsInv(old(View()), Event.Collect(i), View());
      SetsAreRight(View());
    }
  }
}
