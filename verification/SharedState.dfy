/** The rendezvous of one promise and one future. SetResult and SetCallback may run at the same time in two threads;
    every atomic access is one step, and so is handing the callback to the executor. */
module SharedStates {
  import opened Lists
  import opened Results
  import Runs

  /** SetResult, by its next action. */
  datatype Producer =
    | ToWrite
    | ToStore                      // result_ written, about to store result_ready_
    | ToTry                        // about to exchange callback_ready_ with false
    | ToSubmit                     // exchange won, about to call Execute
    | ToNotify
    | Produced

  /** SetCallback, by its next action. */
  datatype Consumer =
    | ToSet
    | ToOffer                      // callback_ written, about to store callback_ready_
    | ToLoad                       // about to load result_ready_
    | ToClaim                      // about to exchange callback_ready_ with false
    | ToExecute                    // exchange won, about to call Execute
    | Consumed

  datatype Cell = Cell(
    result: Option<Result>,        // result_
    callback: bool,                // callback_ is there, not moved out
    resultReady: bool,
    callbackReady: bool,
    producer: Producer,
    consumer: Consumer,
    // history
    submitted: seq<Result>,        // results handed to the executor with the callback
    ran: nat)                      // how many of these tasks have run

  const NEW_CELL := Cell(None, false, false, false, ToWrite, ToSet, [], 0)

  /** One atomic access of SetResult or SetCallback after its first write. */
  datatype Action =
    | StoreResult | TryCallback | SubmitResult | Notify
    | SetCallback | Offer | LoadResult | Claim | SubmitCallback

  predicate CanAct(c: Cell, a: Action) {
    match a
    case StoreResult => c.producer.ToStore?
    case TryCallback => c.producer.ToTry?
    case SubmitResult => c.producer.ToSubmit? && c.result.Some?
    case Notify => c.producer.ToNotify?
    case SetCallback => c.consumer.ToSet?
    case Offer => c.consumer.ToOffer?
    case LoadResult => c.consumer.ToLoad?
    case Claim => c.consumer.ToClaim?
    case SubmitCallback => c.consumer.ToExecute? && c.result.Some?
  }

  /** Execute is given the callback and the result, both moved out of the state. */
  function Submit(c: Cell): Cell
    requires c.result.Some?
  {
    c.(submitted := c.submitted + [c.result.value], callback := false)
  }

  function Act(c: Cell, a: Action): Cell
    requires CanAct(c, a)
  {
    match a
    case StoreResult => c.(resultReady := true, producer := ToTry)
    case TryCallback => c.(callbackReady := false, producer := if c.callbackReady then ToSubmit else ToNotify)
    case SubmitResult => Submit(c).(producer := ToNotify)
    case Notify => c.(producer := Produced)
    case SetCallback => c.(callback := true, consumer := ToOffer)
    case Offer => c.(callbackReady := true, consumer := ToLoad)
    case LoadResult => c.(consumer := if c.resultReady then ToClaim else Consumed)
    case Claim => c.(callbackReady := false, consumer := if c.callbackReady then ToExecute else Consumed)
    case SubmitCallback => Submit(c).(consumer := Consumed)
  }

  predicate CanWrite(c: Cell) {
    c.producer.ToWrite?
  }

  function WriteResult(c: Cell, r: Result): Cell {
    c.(result := Some(r), producer := ToStore)
  }

  predicate CanRun(c: Cell) {
    c.ran < |c.submitted|
  }

  function Run(c: Cell): Cell {
    c.(ran := c.ran + 1)
  }

  // ----- invariant

  predicate Offered(c: Cell) {
    !c.consumer.ToSet? && !c.consumer.ToOffer?
  }

  /** How many claims on the callback there are: the flag, the two exchanges' winners, and what has been submitted. */
  function Claims(c: Cell): nat {
    (if c.callbackReady then 1 else 0) + (if c.producer.ToSubmit? then 1 else 0)
    + (if c.consumer.ToExecute? then 1 else 0) + |c.submitted|
  }

  ghost predicate CellInv(c: Cell) {
    && (c.result.Some? <==> !c.producer.ToWrite?)
    && (c.resultReady <==> !c.producer.ToWrite? && !c.producer.ToStore?)
    && (c.callback <==> !c.consumer.ToSet? && c.submitted == [])
    && Claims(c) == (if Offered(c) then 1 else 0)
    && (c.consumer.ToClaim? || c.consumer.ToExecute? ==> c.resultReady)
    && (c.callbackReady && (c.producer.ToNotify? || c.producer.Produced?) ==> c.consumer.ToLoad? || c.consumer.ToClaim?)
    && (c.submitted != [] ==> c.resultReady && c.submitted == [c.result.value])
    && c.ran <= |c.submitted|
  }

  lemma ActKeepsInv(c: Cell, a: Action)
    requires CellInv(c) && CanAct(c, a)
    ensures CellInv(Act(c, a)) && Act(c, a).result == c.result && Act(c, a).ran == c.ran
    ensures Act(c, a).submitted != c.submitted ==> c.submitted == [] && c.callback
  {
  }

  lemma WriteKeepsInv(c: Cell, r: Result)
    requires CellInv(c) && CanWrite(c)
    ensures CellInv(WriteResult(c, r))
  {
  }

  /** How many accesses, submissions and runs are still to come at most. */
  function CellLeft(c: Cell): nat {
    (match c.producer
     case ToWrite => 5 case ToStore => 4 case ToTry => 3 case ToSubmit => 2 case ToNotify => 1 case Produced => 0)
    + (match c.consumer
       case ToSet => 5 case ToOffer => 4 case ToLoad => 3 case ToClaim => 2 case ToExecute => 1 case Consumed => 0)
    + (if c.ran == 0 then 1 else 0)
  }

  /** What runs next is the result that was set, run for the first time. */
  lemma NextTask(c: Cell)
    requires CellInv(c) && CanRun(c)
    ensures c.ran == 0 && |c.submitted| == 1 && c.result.Some? && c.submitted[0] == c.result.value
    ensures CellInv(Run(c))
  {
  }

  /** A state on which both calls have returned, with no task left, has fired. */
  lemma QuietCell(c: Cell)
    requires CellInv(c) && !CanWrite(c) && !CanRun(c) && forall a :: !CanAct(c, a)
    ensures c.ran == 1
  {
    assert !CanAct(c, StoreResult) && !CanAct(c, TryCallback) && !CanAct(c, SubmitResult) && !CanAct(c, Notify);
    assert !CanAct(c, SetCallback) && !CanAct(c, Offer) && !CanAct(c, LoadResult) && !CanAct(c, Claim);
    assert !CanAct(c, SubmitCallback);
  }

  // ----- runs of one state

  datatype Event = Write(r: Result) | Do(a: Action) | RunTask

  ghost predicate Init(c: Cell) {
    c == NEW_CELL
  }

  ghost predicate Enabled(c: Cell, e: Event) {
    match e
    case Write(_) => CanWrite(c)
    case Do(a) => CanAct(c, a)
    case RunTask => CanRun(c)
  }

  ghost function Perform(c: Cell, e: Event): Cell
    requires Enabled(c, e)
  {
    match e
    case Write(r) => WriteResult(c, r)
    case Do(a) => Act(c, a)
    case RunTask => Run(c)
  }

  ghost predicate Step(c: Cell, e: Event, c': Cell) {
    Enabled(c, e) && c' == Perform(c, e)
  }

  lemma StepKeepsInv(c: Cell, e: Event, c': Cell)
    requires CellInv(c) && Step(c, e, c')
    ensures CellInv(c')
  {
    if e.Do? {
      ActKeepsInv(c, e.a);
    }
  }

  lemma RunsKeepInv(states: seq<Cell>, events: seq<Event>)
    requires Runs.IsRun(Init, Step, states, events)
    ensures forall i :: 0 <= i < |states| ==> CellInv(states[i])
  {
    forall s, e, s' | CellInv(s) && Step(s, e, s') ensures CellInv(s') { StepKeepsInv(s, e, s'); }
    Runs.Invariance(Init, Step, CellInv, states, events);
  }

  ghost predicate HasWritten(c: Cell, r: Result) {
    c.result == Some(r)
  }

  /** Whatever is submitted is the one result that SetResult was called with, and it is submitted at most once. */
  lemma FiresAtMostOnce(states: seq<Cell>, events: seq<Event>, i: nat, j: nat, r: Result)
    requires Runs.IsRun(Init, Step, states, events) && i < j < |states| && events[i] == Write(r)
    ensures states[j].submitted == [] || states[j].submitted == [r]
  {
    RunsKeepInv(states, events);
    assert Step(states[i], events[i], states[i + 1]);
    forall s, e, s' | CellInv(s) && HasWritten(s, r) && Step(s, e, s') ensures HasWritten(s', r) { }
    Runs.Stability(Init, Step, CellInv, s => HasWritten(s, r), states, events, i + 1, j);
  }

  /** When both calls have returned the callback has been submitted, once, with that result; and not before both
      have been made. */
  lemma FiresExactlyOnce(states: seq<Cell>, events: seq<Event>, i: nat, j: nat, r: Result)
    requires Runs.IsRun(Init, Step, states, events) && i < j < |states| && events[i] == Write(r)
    ensures states[j].producer.Produced? && states[j].consumer.Consumed? ==> states[j].submitted == [r]
    ensures states[j].submitted != [] ==> states[j].resultReady && Offered(states[j])
  {
    RunsKeepInv(states, events);
    FiresAtMostOnce(states, events, i, j, r);
  }

  /** The winner of the exchange finds both the callback and the result in place. */
  lemma SubmitFindsBoth(states: seq<Cell>, events: seq<Event>, i: nat)
    requires Runs.IsRun(Init, Step, states, events) && i < |states|
    requires states[i].producer.ToSubmit? || states[i].consumer.ToExecute?
    ensures states[i].result.Some? && states[i].callback && !states[i].callbackReady && states[i].submitted == []
    ensures !(states[i].producer.ToSubmit? && states[i].consumer.ToExecute?)
  {
    RunsKeepInv(states, events);
  }

  /** What SetResult does next, and what SetCallback does next. */
  function NextOfProducer(p: Producer): Action {
    match p
    case ToWrite => StoreResult
    case ToStore => StoreResult
    case ToTry => TryCallback
    case ToSubmit => SubmitResult
    case ToNotify => Notify
    case Produced => Notify
  }

  function NextOfConsumer(c: Consumer): Action {
    match c
    case ToSet => SetCallback
    case ToOffer => Offer
    case ToLoad => LoadResult
    case ToClaim => Claim
    case ToExecute => SubmitCallback
    case Consumed => SubmitCallback
  }

  /** Neither call ever waits for the other: each can take its next step until it returns. */
  lemma NobodyWaits(states: seq<Cell>, events: seq<Event>, i: nat)
    requires Runs.IsRun(Init, Step, states, events) && i < |states|
    ensures var c := states[i];
            && (!c.producer.ToWrite? && !c.producer.Produced? ==>
                  CanAct(c, NextOfProducer(c.producer))
                  && Act(c, NextOfProducer(c.producer)).producer != c.producer)
            && (!c.consumer.Consumed? ==>
                  CanAct(c, NextOfConsumer(c.consumer))
                  && Act(c, NextOfConsumer(c.consumer)).consumer != c.consumer)
  {
    RunsKeepInv(states, events);
  }

  /** The state as an object, one method per atomic access. */
  class SharedState {
    var result: Option<Result>
    var callback: bool
    var resultReady: bool
    var callbackReady: bool
    var producer: Producer
    var consumer: Consumer
    ghost var submitted: seq<Result>
    ghost var ran: nat

    ghost function View(): Cell
      reads this
    {
      Cell(result, callback, resultReady, callbackReady, producer, consumer, submitted, ran)
    }

    ghost predicate Valid()
      reads this
    {
      CellInv(View())
    }

    constructor ()
      ensures Valid() && View() == NEW_CELL
    {
      result, callback, resultReady, callbackReady := None, false, false, false;
      producer, consumer := ToWrite, ToSet;
      submitted, ran := [], 0;
    }

    /** The first write of SetResult. */
    method Write(r: Result)
      requires Valid() && CanWrite(View())
      modifies this
      ensures Valid() && View() == WriteResult(old(View()), r)
    {
      result := Some(r);
      producer := ToStore;
    }

    method StoreResultReady()
      requires Valid() && CanAct(View(), StoreResult)
      modifies this
      ensures Valid() && View() == Act(old(View()), StoreResult)
    {
      resultReady := true;
      producer := ToTry;
    }

    /** TryCallback's exchange, for either side. */
    method ExchangeCallbackReady() returns (won: bool)
      modifies `callbackReady
      ensures won == old(callbackReady) && !callbackReady
    {
      won := callbackReady;
      callbackReady := false;
    }

    method TryFromProducer() returns (won: bool)
      requires Valid() && CanAct(View(), TryCallback)
      modifies this
      ensures Valid() && View() == Act(old(View()), TryCallback)
      ensures won ==> submitted == [] && callback && result.Some?
    {
      won := ExchangeCallbackReady();
      producer := if won then ToSubmit else ToNotify;
    }

    /** Execute: what the executor gets. */
    method Take() returns (r: Result)
      requires Valid() && (CanAct(View(), SubmitResult) || CanAct(View(), SubmitCallback))
      modifies this
      ensures Valid() && old(submitted) == [] && submitted == [r] && Some(r) == result
      ensures old(producer).ToSubmit? ==> View() == Act(old(View()), SubmitResult)
      ensures !old(producer).ToSubmit? ==> View() == Act(old(View()), SubmitCallback)
    {
      r := result.value;
      callback := false;
      if producer.ToSubmit? {
        producer := ToNotify;
      } else {
        consumer := Consumed;
      }
      submitted := submitted + [r];
    }

    method NotifyAll()
      requires Valid() && CanAct(View(), Notify)
      modifies this
      ensures Valid() && View() == Act(old(View()), Notify)
    {
      producer := Produced;
    }

    /** The first write of SetCallback. */
    method WriteCallback()
      requires Valid() && CanAct(View(), SetCallback)
      modifies this
      ensures Valid() && View() == Act(old(View()), SetCallback)
    {
      callback := true;
      consumer := ToOffer;
    }

    method StoreCallbackReady()
      requires Valid() && CanAct(View(), Offer)
      modifies this
      ensures Valid() && View() == Act(old(View()), Offer)
    {
      callbackReady := true;
      consumer := ToLoad;
    }

    method LoadResultReady() returns (ready: bool)
      requires Valid() && CanAct(View(), LoadResult)
      modifies this
      ensures Valid() && View() == Act(old(View()), LoadResult) && ready == resultReady
    {
      ready := resultReady;
      consumer := if ready then ToClaim else Consumed;
    }

    method TryFromConsumer() returns (won: bool)
      requires Valid() && CanAct(View(), Claim)
      modifies this
      ensures Valid() && View() == Act(old(View()), Claim)
      ensures won ==> submitted == [] && callback && result.Some?
    {
      won := ExchangeCallbackReady();
      consumer := if won then ToExecute else Consumed;
    }
  }
}
