/** A chain of synchronous and asynchronous Then on one source future, with a callback on the last one. Producers,
    subscribers, inner futures and executor tasks may take their steps in any order. Whatever the order, the callback
    gets exactly one result: the fold of the continuations over the source's result, cut short by the first error. */
module Continuations {
  import opened Lists
  import opened Results
  import opened SharedStates
  import opened Sums
  import Runs

  /** What an asynchronous continuation gives back: a future that will get this result, or an exception. */
  datatype Promised = Future(result: Result) | Threw(error: int)

  /** A continuation that throws is a Sync one returning an Error. */
  datatype Continuation = Sync(f: int -> Result) | Async(g: int -> Promised)

  /** One Then: has its callback run, the inner future it has subscribed to, and has it set the next future. */
  datatype Stage = Stage(inner: Option<Cell>, promised: Result, settled: bool)

  datatype State = State(
    conts: seq<Continuation>,
    cells: seq<Cell>,              // cells[0] is the source's state, cells[k + 1] that of the future of the k-th Then
    stages: seq<Stage>,
    // history
    source: Option<Result>,
    delivered: seq<Result>)        // what the last callback was called with

  datatype Event =
    | SetSource(r: Result)
    | At(k: nat, a: Action)        // in SetResult or SetCallback of cells[k]
    | RunCallback(k: nat)          // the executor runs the callback of cells[k]
    | SetInner(k: nat)             // the inner future of stage k is given its result
    | Inside(k: nat, a: Action)
    | RunInner(k: nat)

  // ----- what it should compute

  /** One continuation applied to a result. */
  function Apply(c: Continuation, r: Result): Result {
    if r.Error? then r
    else
      match c
      case Sync(f) => f(r.value)
      case Async(g) => match g(r.value) case Future(inner) => inner case Threw(e) => Error(e)
  }

  /** The first k continuations, left to right. */
  function Fold(conts: seq<Continuation>, k: nat, r: Result): Result
    requires k <= |conts|
  {
    if k == 0 then r else Apply(conts[k - 1], Fold(conts, k - 1, r))
  }

  /** The first error goes through to the end untouched. */
  lemma {:induction false} ErrorsShortCircuit(conts: seq<Continuation>, j: nat, k: nat, r: Result)
    requires j <= k <= |conts| && Fold(conts, j, r).Error?
    ensures Fold(conts, k, r) == Fold(conts, j, r)
  {
    if j < k {
      ErrorsShortCircuit(conts, j, k - 1, r);
    }
  }

  // ----- the machine

  const NEW_STAGE := Stage(None, Error(0), false)

  ghost predicate Init(s: State) {
    && |s.cells| == |s.conts| + 1 && |s.stages| == |s.conts|
    && (forall k :: 0 <= k < |s.cells| ==> s.cells[k] == NEW_CELL)
    && (forall k :: 0 <= k < |s.stages| ==> s.stages[k] == NEW_STAGE)
    && s.source == None && s.delivered == []
  }

  ghost predicate Shape(s: State) {
    |s.cells| == |s.conts| + 1 && |s.stages| == |s.conts|
  }

  function Put(s: State, k: nat, c: Cell): State
    requires k < |s.cells|
  {
    s.(cells := s.cells[k := c])
  }

  function PutStage(s: State, k: nat, stage: Stage): State
    requires k < |s.stages|
  {
    s.(stages := s.stages[k := stage])
  }

  predicate HasInner(s: State, k: nat) {
    k < |s.stages| && s.stages[k].inner.Some?
  }

  ghost predicate Enabled(s: State, e: Event) {
    && Shape(s)
    && match e
       case SetSource(_) => CanWrite(s.cells[0])
       case At(k, a) => k < |s.cells| && CanAct(s.cells[k], a)
       case RunCallback(k) => k < |s.cells| && CanRun(s.cells[k])
       case SetInner(k) => HasInner(s, k) && CanWrite(s.stages[k].inner.value)
       case Inside(k, a) => HasInner(s, k) && CanAct(s.stages[k].inner.value, a)
       case RunInner(k) => HasInner(s, k) && CanRun(s.stages[k].inner.value)
  }

  /** The promise of the k-th Then is set. */
  function Settle(s: State, k: nat, r: Result): State
    requires k < |s.stages| && k + 1 < |s.cells|
  {
    PutStage(Put(s, k + 1, WriteResult(s.cells[k + 1], r)), k, s.stages[k].(settled := true))
  }

  /** The callback that the k-th Then installed. */
  function Continue(s: State, k: nat, r: Result): State
    requires k < |s.stages| && k + 1 < |s.cells| && k < |s.conts|
  {
    if r.Error? then Settle(s, k, r)
    else
      match s.conts[k]
      case Sync(f) => Settle(s, k, f(r.value))
      case Async(g) =>
        match g(r.value)
        case Threw(e) => Settle(s, k, Error(e))
        case Future(promised) => PutStage(s, k, Stage(Some(NEW_CELL), promised, false))
  }

  ghost function DoRunCallback(s: State, k: nat): State
    requires Enabled(s, RunCallback(k))
  {
    var r := s.cells[k].submitted[s.cells[k].ran];
    var s' := Put(s, k, Run(s.cells[k]));
    if k < |s.conts| then Continue(s', k, r) else s'.(delivered := s.delivered + [r])
  }

  function PutInner(s: State, k: nat, c: Cell): State
    requires k < |s.stages|
  {
    PutStage(s, k, s.stages[k].(inner := Some(c)))
  }

  ghost function Perform(s: State, e: Event): State
    requires Enabled(s, e)
  {
    match e
    case SetSource(r) => Put(s, 0, WriteResult(s.cells[0], r)).(source := Some(r))
    case At(k, a) => Put(s, k, Act(s.cells[k], a))
    case RunCallback(k) => DoRunCallback(s, k)
    case SetInner(k) => PutInner(s, k, WriteResult(s.stages[k].inner.value, s.stages[k].promised))
    case Inside(k, a) => PutInner(s, k, Act(s.stages[k].inner.value, a))
    case RunInner(k) =>
      var c := s.stages[k].inner.value;
      Settle(PutInner(s, k, Run(c)), k, c.submitted[c.ran])
  }

  ghost predicate Step(s: State, e: Event, s': State) {
    Enabled(s, e) && s' == Perform(s, e)
  }

  // ----- invariant

  /** A future's result is the fold so far. */
  ghost predicate CellOk(s: State, k: nat)
    requires k < |s.cells| && Shape(s)
  {
    var c := s.cells[k];
    && CellInv(c)
    && (c.result.Some? ==> s.source.Some? && c.result.value == Fold(s.conts, k, s.source.value))
  }

  /** A stage sets the next future once, either in its callback or when its inner future fires. */
  ghost predicate StageOk(s: State, k: nat)
    requires k < |s.stages| && Shape(s)
  {
    var stage := s.stages[k];
    && (stage.settled <==> !s.cells[k + 1].producer.ToWrite?)
    && (stage.settled || stage.inner.Some? <==> s.cells[k].ran == 1)
    && (stage.inner.Some? ==>
          var c := stage.inner.value;
          && CellInv(c) && (c.result.Some? ==> c.result.value == stage.promised)
          && s.source.Some? && stage.promised == Fold(s.conts, k + 1, s.source.value)
          && (stage.settled <==> c.ran == 1))
  }

  ghost predicate EndsOk(s: State)
    requires Shape(s)
  {
    && (s.source.Some? <==> !s.cells[0].producer.ToWrite?)
    && |s.delivered| == s.cells[|s.conts|].ran
    && (s.delivered != [] ==> s.source.Some? && s.delivered == [Fold(s.conts, |s.conts|, s.source.value)])
  }

  ghost predicate Inv(s: State) {
    && Shape(s)
    && (forall k :: 0 <= k < |s.cells| ==> CellOk(s, k))
    && (forall k :: 0 <= k < |s.stages| ==> StageOk(s, k))
    && EndsOk(s)
  }

  lemma ActStep(s: State, k: nat, a: Action)
    requires Inv(s) && Enabled(s, At(k, a))
    ensures Inv(Perform(s, At(k, a)))
  {
    assert CellOk(s, k);
    ActKeepsInv(s.cells[k], a);
    var s' := Perform(s, At(k, a));
    assert s.cells[k].producer.ToWrite? <==> s'.cells[k].producer.ToWrite?;
    forall j | 0 <= j < |s.cells| ensures CellOk(s', j) { assert CellOk(s, j); }
    forall j | 0 <= j < |s.stages| ensures StageOk(s', j) { assert StageOk(s, j); }
  }

  lemma SourceStep(s: State, r: Result)
    requires Inv(s) && Enabled(s, SetSource(r))
    ensures Inv(Perform(s, SetSource(r)))
  {
    var s' := Perform(s, SetSource(r));
    assert CellOk(s, 0);
    WriteKeepsInv(s.cells[0], r);
    forall j | 0 <= j < |s.cells| ensures CellOk(s', j) { assert CellOk(s, j); }
    forall j | 0 <= j < |s.stages| ensures StageOk(s', j) { assert StageOk(s, j); }
  }

  lemma InnerStep(s: State, e: Event)
    requires Inv(s) && Enabled(s, e) && (e.SetInner? || e.Inside?)
    ensures Inv(Perform(s, e))
  {
    var s' := Perform(s, e);
    var c := s.stages[e.k].inner.value;
    assert StageOk(s, e.k);
    if e.Inside? {
      ActKeepsInv(c, e.a);
    } else {
      WriteKeepsInv(c, s.stages[e.k].promised);
    }
    forall j | 0 <= j < |s.cells| ensures CellOk(s', j) { assert CellOk(s, j); }
    forall j | 0 <= j < |s.stages| ensures StageOk(s', j) { assert StageOk(s, j); }
  }

  /** Setting the promise of a stage whose time has come. */
  lemma SettleKeepsInv(s: State, t: State, k: nat, r: Result)
    requires Shape(s) && Shape(t) && k < |s.stages| && s.conts == t.conts
    requires Inv(s) && s.source.Some? && s.cells[k + 1].producer.ToWrite?
    requires r == Fold(s.conts, k + 1, s.source.value)
    requires t == s.(cells := t.cells, stages := t.stages)
    requires forall j :: 0 <= j < |s.cells| && j != k ==> t.cells[j] == s.cells[j]
    requires forall j :: 0 <= j < |s.stages| && j != k ==> t.stages[j] == s.stages[j]
    requires CellOk(t, k) && t.cells[k].ran == 1 && (k > 0 ==> StageOk(t, k - 1)) && EndsOk(t)
    requires t.stages[k].inner.Some? ==>
               var c := t.stages[k].inner.value;
               && CellInv(c) && c.ran == 1 && (c.result.Some? ==> c.result.value == t.stages[k].promised)
               && t.stages[k].promised == Fold(s.conts, k + 1, s.source.value)
    ensures Inv(Settle(t, k, r))
  {
    var s' := Settle(t, k, r);
    assert CellOk(s, k + 1);
    WriteKeepsInv(t.cells[k + 1], r);
    forall j | 0 <= j < |s.cells| ensures CellOk(s', j) {
      assert CellOk(s, j);
    }
    forall j | 0 <= j < |s.stages| ensures StageOk(s', j) {
      assert StageOk(s, j);
    }
  }

  lemma RunInnerStep(s: State, k: nat)
    requires Inv(s) && Enabled(s, RunInner(k))
    ensures Inv(Perform(s, RunInner(k)))
  {
    var c := s.stages[k].inner.value;
    assert StageOk(s, k) && CellOk(s, k) && (k > 0 ==> StageOk(s, k - 1));
    NextTask(c);
    SettleKeepsInv(s, PutInner(s, k, Run(c)), k, c.submitted[c.ran]);
  }

  lemma RunLastStep(s: State)
    requires Inv(s) && Enabled(s, RunCallback(|s.conts|))
    ensures Inv(Perform(s, RunCallback(|s.conts|)))
  {
    var n := |s.conts|;
    var s' := Perform(s, RunCallback(n));
    assert CellOk(s, n);
    NextTask(s.cells[n]);
    forall j | 0 <= j < |s.cells| ensures CellOk(s', j) { assert CellOk(s, j); }
    forall j | 0 <= j < |s.stages| ensures StageOk(s', j) { assert StageOk(s, j); }
  }

  lemma RunCallbackStep(s: State, k: nat)
    requires Inv(s) && Enabled(s, RunCallback(k)) && k < |s.conts|
    ensures Inv(Perform(s, RunCallback(k)))
  {
    var s' := Perform(s, RunCallback(k));
    var t := Put(s, k, Run(s.cells[k]));
    var r := s.cells[k].submitted[s.cells[k].ran];
    assert CellOk(s, k) && StageOk(s, k) && (k > 0 ==> StageOk(s, k - 1));
    NextTask(s.cells[k]);
    assert Fold(s.conts, k + 1, s.source.value) == Apply(s.conts[k], r);
    if s'.stages[k].settled {
      SettleKeepsInv(s, t, k, Apply(s.conts[k], r));
    } else {
      forall j | 0 <= j < |s.cells| ensures CellOk(s', j) { assert CellOk(s, j); }
      forall j | 0 <= j < |s.stages| ensures StageOk(s', j) { assert StageOk(s, j); }
    }
  }

  lemma StepKeepsInv(s: State, e: Event, s': State)
    requires Inv(s) && Step(s, e, s')
    ensures Inv(s')
  {
    match e
    case SetSource(r) => SourceStep(s, r);
    case At(k, a) => ActStep(s, k, a);
    case RunCallback(k) =>
      if k < |s.conts| {
        RunCallbackStep(s, k);
      } else {
        RunLastStep(s);
      }
    case SetInner(k) => InnerStep(s, e);
    case Inside(k, a) => InnerStep(s, e);
    case RunInner(k) => RunInnerStep(s, k);
  }

  lemma RunsKeepInv(states: seq<State>, events: seq<Event>)
    requires Runs.IsRun(Init, Step, states, events)
    ensures forall i :: 0 <= i < |states| ==> Inv(states[i])
  {
    forall s, e, s' | Inv(s) && Step(s, e, s') ensures Inv(s') { StepKeepsInv(s, e, s'); }
    Runs.Invariance(Init, Step, Inv, states, events);
  }

  // ----- what the chain promises, on every run

  ghost function FoldAll(s: State): Result
    requires s.source.Some?
  {
    Fold(s.conts, |s.conts|, s.source.value)
  }

  /** The last callback is called at most once, and with nothing but the fold; every future on the way only ever holds
      the fold of the continuations before it. */
  lemma DeliversOnlyTheFold(states: seq<State>, events: seq<Event>, i: nat)
    requires Runs.IsRun(Init, Step, states, events) && i < |states|
    ensures var s := states[i];
            && (s.delivered == [] || (s.source.Some? && s.delivered == [FoldAll(s)]))
            && |s.cells| == |s.conts| + 1
            && forall k :: 0 <= k < |s.cells| && s.cells[k].result.Some? ==>
                 s.source.Some? && s.cells[k].result.value == Fold(s.conts, k, s.source.value)
  {
    RunsKeepInv(states, events);
    var s := states[i];
    assert Inv(s);
    forall k | 0 <= k < |s.cells| && s.cells[k].result.Some?
      ensures s.source.Some? && s.cells[k].result.value == Fold(s.conts, k, s.source.value)
    {
      assert CellOk(s, k);
    }
  }

  /** Nothing is left to do: every call has been made and has returned, and the executors are empty. */
  ghost predicate Quiet(s: State) {
    forall e :: !Enabled(s, e)
  }

  lemma QuietFuture(s: State, k: nat)
    requires Inv(s) && Quiet(s) && k < |s.cells| && !s.cells[k].producer.ToWrite?
    ensures s.cells[k].ran == 1
  {
    assert CellOk(s, k);
    forall a ensures !CanAct(s.cells[k], a) { assert !Enabled(s, At(k, a)); }
    assert !Enabled(s, RunCallback(k));
    QuietCell(s.cells[k]);
  }

  lemma QuietStage(s: State, k: nat)
    requires Inv(s) && Quiet(s) && k < |s.stages| && s.cells[k].ran == 1
    ensures !s.cells[k + 1].producer.ToWrite?
  {
    assert StageOk(s, k);
    if s.stages[k].inner.Some? {
      var c := s.stages[k].inner.value;
      forall a ensures !CanAct(c, a) { assert !Enabled(s, Inside(k, a)); }
      assert !Enabled(s, RunInner(k)) && !Enabled(s, SetInner(k));
      QuietCell(c);
    }
  }

  lemma {:induction false} QuietChain(s: State, k: nat)
    requires Inv(s) && Quiet(s) && k < |s.cells|
    ensures s.cells[k].ran == 1
  {
    if k == 0 {
      assert !Enabled(s, SetSource(Value(0)));
    } else {
      QuietChain(s, k - 1);
      QuietStage(s, k - 1);
    }
    QuietFuture(s, k);
  }

  /** However the steps were ordered, a run that cannot go on has called the last callback exactly once, with the
      fold over the result the source was given. */
  lemma CompleteRunsDeliver(states: seq<State>, events: seq<Event>)
    requires Runs.IsRun(Init, Step, states, events) && Quiet(states[|states| - 1])
    ensures var s := states[|states| - 1]; s.source.Some? && s.delivered == [FoldAll(s)]
  {
    RunsKeepInv(states, events);
    var s := states[|states| - 1];
    assert Inv(s);
    QuietChain(s, |s.conts|);
  }

  /** The source's result is what SetSource was called with, and the continuations stay the same. */
  lemma {:induction false} SourceIsWhatWasSet(states: seq<State>, events: seq<Event>, j: nat)
    requires Runs.IsRun(Init, Step, states, events) && j < |states|
    ensures states[j].conts == states[0].conts
    ensures forall i :: 0 <= i < j && events[i].SetSource? ==> states[j].source == Some(events[i].r)
    ensures states[j].source.Some? ==> exists i :: 0 <= i < j && events[i] == SetSource(states[j].source.value)
    decreases j
  {
    if j > 0 {
      RunsKeepInv(states, events);
      SourceIsWhatWasSet(states, events, j - 1);
      var s, e := states[j - 1], events[j - 1];
      assert Step(s, e, states[j - 1 + 1]);
      assert e.SetSource? ==> s.source == None;
      assert !e.SetSource? ==> states[j].source == s.source;
    }
  }

  /** In terms of the calls: the last callback is only ever given the fold over what SetSource(r), at event i, was
      called with. */
  lemma DeliversFoldOfWhatWasSet(states: seq<State>, events: seq<Event>, i: nat, j: nat, r: Result)
    requires Runs.IsRun(Init, Step, states, events) && i < j < |states| && events[i] == SetSource(r)
    ensures var conts := states[0].conts;
            states[j].delivered == [] || states[j].delivered == [Fold(conts, |conts|, r)]
  {
    DeliversOnlyTheFold(states, events, j);
    SourceIsWhatWasSet(states, events, j);
  }

  // ----- and every run can be completed: no run is longer than a bound linear in the number of continuations

  function StageLeft(stage: Stage): nat {
    if stage.inner.Some? then CellLeft(stage.inner.value) else if stage.settled then 0 else 13
  }

  ghost function Left(s: State): nat {
    Total(s.cells, CellLeft) + Total(s.stages, StageLeft)
  }

  lemma StageWork(s: State, t: State, k: nat)
    requires k < |s.stages| == |t.stages| && t.cells == s.cells && t.stages == s.stages[k := t.stages[k]]
    requires StageLeft(t.stages[k]) < StageLeft(s.stages[k])
    ensures Left(t) < Left(s)
  {
    TotalUpdate(s.stages, k, t.stages[k], StageLeft);
  }

  lemma CellWork(s: State, t: State, k: nat)
    requires k < |s.cells| == |t.cells| && t.stages == s.stages && t.cells == s.cells[k := t.cells[k]]
    requires CellLeft(t.cells[k]) < CellLeft(s.cells[k])
    ensures Left(t) < Left(s)
  {
    TotalUpdate(s.cells, k, t.cells[k], CellLeft);
  }

  lemma SettleWork(s: State, k: nat, r: Result)
    requires k < |s.stages| && k + 1 < |s.cells| && s.cells[k + 1].producer.ToWrite?
    ensures Left(Settle(s, k, r)) < Left(s)
  {
    TotalUpdate(s.cells, k + 1, WriteResult(s.cells[k + 1], r), CellLeft);
    TotalUpdate(s.stages, k, s.stages[k].(settled := true), StageLeft);
  }

  lemma RunCallbackWork(s: State, k: nat)
    requires Inv(s) && Enabled(s, RunCallback(k))
    ensures Left(Perform(s, RunCallback(k))) < Left(s)
  {
    assert CellOk(s, k);
    NextTask(s.cells[k]);
    var t := Put(s, k, Run(s.cells[k]));
    CellWork(s, t, k);
    if k < |s.conts| {
      var s' := Perform(s, RunCallback(k));
      assert StageOk(s, k) && StageLeft(NEW_STAGE) == 13;
      if s'.stages[k].settled {
        SettleWork(t, k, s'.cells[k + 1].result.value);
      } else {
        StageWork(t, s', k);
      }
    }
  }

  lemma AtWork(s: State, k: nat, a: Action)
    requires Shape(s) && Enabled(s, At(k, a))
    ensures Left(Perform(s, At(k, a))) < Left(s)
  {
    CellWork(s, Perform(s, At(k, a)), k);
  }

  lemma SourceWork(s: State, r: Result)
    requires Shape(s) && Enabled(s, SetSource(r))
    ensures Left(Perform(s, SetSource(r))) < Left(s)
  {
    CellWork(s, Perform(s, SetSource(r)), 0);
  }

  lemma SetInnerWork(s: State, k: nat)
    requires Shape(s) && Enabled(s, SetInner(k))
    ensures Left(Perform(s, SetInner(k))) < Left(s)
  {
    StageWork(s, Perform(s, SetInner(k)), k);
  }

  lemma InsideWork(s: State, k: nat, a: Action)
    requires Shape(s) && Enabled(s, Inside(k, a))
    ensures Left(Perform(s, Inside(k, a))) < Left(s)
  {
    StageWork(s, Perform(s, Inside(k, a)), k);
  }

  lemma RunInnerWork(s: State, k: nat)
    requires Inv(s) && Enabled(s, RunInner(k))
    ensures Left(Perform(s, RunInner(k))) < Left(s)
  {
    var c := s.stages[k].inner.value;
    assert StageOk(s, k);
    NextTask(c);
    var t := PutInner(s, k, Run(c));
    StageWork(s, t, k);
    SettleWork(t, k, c.submitted[c.ran]);
  }

  /** Every step makes progress. */
  lemma StepWorks(s: State, e: Event)
    requires Inv(s) && Enabled(s, e)
    ensures Left(Perform(s, e)) < Left(s)
  {
    match e
    case SetSource(r) => SourceWork(s, r);
    case At(k, a) => AtWork(s, k, a);
    case RunCallback(k) => RunCallbackWork(s, k);
    case SetInner(k) => SetInnerWork(s, k);
    case Inside(k, a) => InsideWork(s, k, a);
    case RunInner(k) => RunInnerWork(s, k);
  }

  /** Every run ends: it has at most 24 steps for each continuation and 11 for the source. */
  lemma RunsAreBounded(states: seq<State>, events: seq<Event>)
    requires Runs.IsRun(Init, Step, states, events)
    ensures |events| <= 24 * |states[0].conts| + 11
  {
    RunsKeepInv(states, events);
    forall s, e, s' | Inv(s) && Step(s, e, s') ensures Left(s') < Left(s) { StepWorks(s, e); }
    Runs.Descent(Step, Inv, Left, states, events, 0, |events|);
    TotalOfEqual(states[0].cells, NEW_CELL, CellLeft);
    TotalOfEqual(states[0].stages, NEW_STAGE, StageLeft);
  }
}
