/** What complete calls of Lock, Unlock, Wait, NotifyOne and NotifyAll do, from the call to the return to the caller's code,
    which is at Idle without the mutex and at Holding with it. */
module MonitorCalls {
  import F = Futexes
  import FC = FutexCalls
  import Histories
  import opened Lists
  import opened Monitors
  import Runs

  /** The fiber that takes this step. */
  function Actor(e: Event): Id {
    if e.Inner? then e.e.f else e.f
  }

  predicate InCallersCode(at: At) {
    at.Idle? || at.Holding?
  }

  /** The fiber is inside a call during this whole stretch, and back in its caller's code at the end of it. */
  ghost predicate Inside(states: seq<State>, f: Id, first: nat, last: nat) {
    && first < last < |states| && InCallersCode(AtOf(states[last], f))
    && forall k :: first <= k < last ==> !InCallersCode(AtOf(states[k], f))
  }

  /** A call made by this fiber at event i has just returned in state j. */
  ghost predicate Returns(states: seq<State>, f: Id, i: nat, j: nat) {
    Histories.Returns((s: State) => InCallersCode(AtOf(s, f)), states, i, j)
  }

  lemma OthersStayWhereTheyAre(s: State, e: Event, f: Id)
    requires Enabled(s, e) && Actor(e) != f
    ensures AtOf(Perform(s, e), f) == AtOf(s, f)
  {
  }

  // ----- Wait and Lock end with the mutex

  /** On the way to the mutex: inside Lock, or inside Wait. */
  predicate OnTheWay(at: At) {
    || at.Exchanging? || at.Failed? || at.InPark? || at.Noticed? || at.Belling? || at.InBell?
    || ((at.Stored? || at.InWake?) && at.next.ToBell?)
  }

  lemma WayStep(s: State, e: Event, f: Id)
    requires Inv(s) && Enabled(s, e) && OnTheWay(AtOf(s, f))
    ensures OnTheWay(AtOf(Perform(s, e), f)) || AtOf(Perform(s, e), f).Holding?
  {
    if Actor(e) != f {
      OthersStayWhereTheyAre(s, e, f);
    } else {
      assert Agree(s.at[f], PcOf(s, f));
    }
  }

  lemma {:induction false} WayEnds(states: seq<State>, events: seq<Event>, i: nat, j: nat, f: Id)
    requires Runs.IsRun(Init, Step, states, events) && Inside(states, f, i, j) && OnTheWay(AtOf(states[i], f))
    ensures AtOf(states[j], f).Holding? && states[j].holder == Some(f)
    decreases j - i
  {
    RunsKeepInv(states, events);
    assert Step(states[i], events[i], states[i + 1]);
    WayStep(states[i], events[i], f);
    if i + 1 < j {
      WayEnds(states, events, i + 1, j, f);
    }
  }

  /** A call of Lock returns with the mutex. */
  lemma LockEndsHolding(states: seq<State>, events: seq<Event>, i: nat, j: nat, f: Id)
    requires Runs.IsRun(Init, Step, states, events) && i < |events| && events[i] == Lock(f)
    requires Returns(states, f, i, j)
    ensures AtOf(states[j], f).Holding? && states[j].holder == Some(f)
  {
    assert Step(states[i], events[i], states[i + 1]);
    WayEnds(states, events, i + 1, j, f);
  }

  lemma {:induction false} StoresFirst(states: seq<State>, events: seq<Event>, i: nat, j: nat, f: Id) returns (k: nat)
    requires Runs.IsRun(Init, Step, states, events) && Inside(states, f, i, j) && AtOf(states[i], f).Noticed?
    ensures i <= k < j && events[k] == Store(f) && AtOf(states[k], f) == AtOf(states[i], f)
    decreases j - i
  {
    RunsKeepInv(states, events);
    assert Step(states[i], events[i], states[i + 1]);
    if events[i] == Store(f) {
      k := i;
    } else {
      NoticedStays(states[i], events[i], f);
      k := StoresFirst(states, events, i + 1, j, f);
    }
  }

  lemma NoticedStays(s: State, e: Event, f: Id)
    requires Inv(s) && Enabled(s, e) && AtOf(s, f).Noticed? && e != Store(f)
    ensures AtOf(Perform(s, e), f) == AtOf(s, f)
  {
    if Actor(e) != f {
      OthersStayWhereTheyAre(s, e, f);
    }
  }

  /** Only the holder waits; in between it gives up the mutex, at event k; and Wait returns with the mutex. */
  lemma WaitEndsHolding(states: seq<State>, events: seq<Event>, i: nat, j: nat, f: Id) returns (k: nat)
    requires Runs.IsRun(Init, Step, states, events) && i < |events| && events[i] == LoadVal(f)
    requires Returns(states, f, i, j)
    ensures states[i].holder == Some(f)
    ensures i < k < j && states[k].holder == Some(f) && states[k + 1].holder == None
    ensures AtOf(states[j], f).Holding? && states[j].holder == Some(f)
  {
    RunsKeepInv(states, events);
    assert Step(states[i], events[i], states[i + 1]);
    WayEnds(states, events, i + 1, j, f);
    k := StoresFirst(states, events, i + 1, j, f);
    assert Step(states[k], events[k], states[k + 1]);
    assert Inv(states[i]) && Inv(states[k]);
  }

  // ----- Wait does not return by itself

  /** Inside Wait, and neither woken nor sent on its way because val_ had changed. */
  ghost predicate StillWaits(s: State, f: Id, noticed: int) {
    var at := AtOf(s, f);
    || at == Noticed(noticed) || at == Stored(ToBell(noticed)) || at == InWake(ToBell(noticed)) || at == Belling(noticed)
    || (at == InBell(noticed)
        && (var pc := PcOf(s, f); pc.Entering? || pc.Announced? || pc.Suspended? || pc.Linked? || pc.Parked?))
  }

  /** This step of a notify takes fiber f, which is parked on the bell, out of its queue. */
  ghost predicate ReleasesFromBell(s: State, e: Event, s': State, f: Id) {
    && e.Inner? && e.e.WakeNext? && AtOf(s, e.e.f).InRing?
    && PcOf(s, f).Parked? && PcOf(s, f).x == VAL && PcOf(s', f).Popped?
  }

  lemma WaitGoesOn(s: State, e: Event, f: Id, noticed: int)
    requires Enabled(s, e) && StillWaits(s, f, noticed) && Actor(e) == f && f in s.at && Agree(s.at[f], PcOf(s, f))
    requires e != Inner(F.CheckCell(f))
    ensures StillWaits(Perform(s, e), f, noticed)
  {
  }

  lemma WaitOwnStep(s: State, e: Event, f: Id, noticed: int)
    requires Inv(s) && Enabled(s, e) && StillWaits(s, f, noticed) && Actor(e) == f
    ensures StillWaits(Perform(s, e), f, noticed) || Cell(s, VAL) != noticed
  {
    assert f in s.at && Agree(s.at[f], PcOf(s, f));
    if e == Inner(F.CheckCell(f)) {
      CheckParks(s, f);
    } else {
      WaitGoesOn(s, e, f, noticed);
    }
  }

  /** Only a notify takes a fiber out of the bell's queue. */
  lemma WaitWakerStep(s: State, e: Event, f: Id)
    requires Inv(s) && Enabled(s, e) && AtOf(s, f).InBell? && Actor(e) != f && e.Inner? && (e.e.WakeNext? || e.e.Awake?)
    requires PcOf(s, f).Parked? ==> PcOf(s, f).x == VAL
    ensures PcOf(Perform(s, e), f) == PcOf(s, f) || ReleasesFromBell(s, e, Perform(s, e), f) || PcOf(s, f).Popped?
  {
    if PcOf(s, f).Parked? {
      FC.ParkStepWaker(s.fx, e.e, f);
      assert e.e.f in s.at && Agree(s.at[e.e.f], PcOf(s, e.e.f));
    } else if !PcOf(s, f).Popped? {
      FC.WakersLeaveIt(s.fx, e.e, f);
    }
  }

  /** Nobody else moves it. */
  lemma WaitBystanderStep(s: State, e: Event, f: Id)
    requires Inv(s) && Enabled(s, e) && Actor(e) != f && !(e.Inner? && (e.e.WakeNext? || e.e.Awake?))
    ensures PcOf(Perform(s, e), f) == PcOf(s, f)
  {
    var below := Below(s, e);
    if below.Some? {
      StepIsFutexStep(s, e);
      FC.ParkStepOther(s.fx, below.value, f);
    }
  }

  lemma WaitOtherStep(s: State, e: Event, f: Id, noticed: int)
    requires Inv(s) && Enabled(s, e) && StillWaits(s, f, noticed) && Actor(e) != f
    ensures StillWaits(Perform(s, e), f, noticed) || ReleasesFromBell(s, e, Perform(s, e), f)
  {
    OthersStayWhereTheyAre(s, e, f);
    if AtOf(s, f).InBell? {
      if e.Inner? && (e.e.WakeNext? || e.e.Awake?) {
        assert f in s.at && Agree(s.at[f], PcOf(s, f));
        WaitWakerStep(s, e, f);
      } else {
        WaitBystanderStep(s, e, f);
      }
    }
  }

  lemma WaitStep(s: State, e: Event, s': State, f: Id, noticed: int)
    requires Inv(s) && Step(s, e, s') && StillWaits(s, f, noticed)
    ensures StillWaits(s', f, noticed) || Cell(s, VAL) != noticed || ReleasesFromBell(s, e, s', f)
  {
    if Actor(e) == f {
      WaitOwnStep(s, e, f, noticed);
    } else {
      WaitOtherStep(s, e, f, noticed);
    }
  }

  lemma StillWaitsInside(s: State, f: Id, noticed: int)
    requires StillWaits(s, f, noticed)
    ensures !InCallersCode(AtOf(s, f))
  {
  }

  lemma {:induction false} WaitNeedsCause(states: seq<State>, events: seq<Event>, i: nat, j: nat, f: Id, noticed: int)
      returns (m: nat)
    requires Runs.IsRun(Init, Step, states, events) && Inside(states, f, i, j) && StillWaits(states[i], f, noticed)
    ensures i <= m < j
    ensures Cell(states[m], VAL) != noticed || ReleasesFromBell(states[m], events[m], states[m + 1], f)
    decreases j - i
  {
    RunsKeepInv(states, events);
    assert Step(states[i], events[i], states[i + 1]);
    WaitStep(states[i], events[i], states[i + 1], f, noticed);
    m := i;
    if StillWaits(states[i + 1], f, noticed) {
      StillWaitsInside(states[i + 1], f, noticed);
      m := WaitNeedsCause(states, events, i + 1, j, f, noticed);
    }
  }

  /** A Wait called at event i returns, in state j, only for a reason: at some time in between val_ differed from what it
      was at event i, that is somebody had notified, or a notify took this very fiber out of the bell's queue. */
  lemma WaitNeedsNotify(states: seq<State>, events: seq<Event>, i: nat, j: nat, f: Id) returns (m: nat)
    requires Runs.IsRun(Init, Step, states, events) && i < |events| && events[i] == LoadVal(f)
    requires Returns(states, f, i, j)
    ensures i < m < j
    ensures Cell(states[m], VAL) != Cell(states[i], VAL) || ReleasesFromBell(states[m], events[m], states[m + 1], f)
  {
    assert Step(states[i], events[i], states[i + 1]);
    m := WaitNeedsCause(states, events, i + 1, j, f, Cell(states[i], VAL));
  }

  // ----- Unlock and Notify

  predicate Unlocking(at: At) {
    (at.Stored? || at.InWake?) && at.next.ToCaller?
  }

  lemma UnlockStep(s: State, e: Event, f: Id)
    requires Inv(s) && Enabled(s, e) && Unlocking(AtOf(s, f))
    ensures Unlocking(AtOf(Perform(s, e), f)) || AtOf(Perform(s, e), f).Idle?
    ensures AtOf(s, f).Stored? && e != CallWake(f) ==> AtOf(Perform(s, e), f) == AtOf(s, f)
  {
    if Actor(e) != f {
      OthersStayWhereTheyAre(s, e, f);
    } else {
      assert Agree(s.at[f], PcOf(s, f));
    }
  }

  lemma {:induction false} UnlockEnds(states: seq<State>, events: seq<Event>, i: nat, j: nat, f: Id)
    requires Runs.IsRun(Init, Step, states, events) && Inside(states, f, i, j) && Unlocking(AtOf(states[i], f))
    ensures AtOf(states[j], f).Idle?
    ensures AtOf(states[i], f).Stored? ==> exists k :: i <= k < j && events[k] == CallWake(f)
    decreases j - i
  {
    RunsKeepInv(states, events);
    assert Step(states[i], events[i], states[i + 1]);
    UnlockStep(states[i], events[i], f);
    if i + 1 < j {
      UnlockEnds(states, events, i + 1, j, f);
    }
  }

  /** Unlock gives up the mutex at once, then wakes one on waiter_ before it returns, without the mutex. */
  lemma UnlockCall(states: seq<State>, events: seq<Event>, i: nat, j: nat, f: Id)
    requires Runs.IsRun(Init, Step, states, events) && i < |events| && events[i] == Store(f)
    requires AtOf(states[i], f).Holding? && Returns(states, f, i, j)
    ensures states[i].holder == Some(f) && states[i + 1].holder == None && Cell(states[i + 1], ACCESS) == 0
    ensures AtOf(states[j], f).Idle? && states[j].holder != Some(f)
    ensures exists k :: i < k < j && events[k] == CallWake(f)
  {
    RunsKeepInv(states, events);
    assert Step(states[i], events[i], states[i + 1]);
    assert Inv(states[i]) && Inv(states[i + 1]) && Inv(states[j]);
    UnlockEnds(states, events, i + 1, j, f);
  }

  /** The wake of an Unlock is a WakeOne on waiter_. */
  lemma UnlockWakesOne(states: seq<State>, events: seq<Event>, k: nat, f: Id)
    requires Runs.IsRun(Init, Step, states, events) && k < |events| && events[k] == CallWake(f)
    ensures F.Step(states[k].fx, F.Wake(f, ACCESS, false), states[k + 1].fx)
  {
    assert Step(states[k], events[k], states[k + 1]);
    StepIsFutexStep(states[k], events[k]);
  }

  predicate Notifying(at: At, all: bool, holding: bool) {
    (at.Added? || at.InRing?) && at.all == all && at.holding == holding
  }

  lemma NotifyStep(s: State, e: Event, f: Id, all: bool, holding: bool)
    requires Inv(s) && Enabled(s, e) && Notifying(AtOf(s, f), all, holding)
    ensures var at' := AtOf(Perform(s, e), f); Notifying(at', all, holding) || at' == (if holding then Holding else At.Idle)
    ensures AtOf(s, f).Added? && e != CallRing(f) ==> AtOf(Perform(s, e), f) == AtOf(s, f)
    ensures e == CallRing(f) ==> Below(s, e) == Some(F.Wake(f, VAL, all))
  {
    if Actor(e) != f {
      OthersStayWhereTheyAre(s, e, f);
    } else {
      assert Agree(s.at[f], PcOf(s, f));
    }
  }

  /** The step wakes fibers on the bell: one, or all. */
  ghost predicate Rings(s: State, e: Event, s': State, f: Id, all: bool) {
    e == CallRing(f) && F.Step(s.fx, F.Wake(f, VAL, all), s'.fx)
  }

  lemma {:induction false} NotifyEnds(states: seq<State>, events: seq<Event>, i: nat, j: nat, f: Id, all: bool, holding: bool)
      returns (k: nat)
    requires Runs.IsRun(Init, Step, states, events) && Inside(states, f, i, j) && Notifying(AtOf(states[i], f), all, holding)
    ensures AtOf(states[j], f) == (if holding then Holding else At.Idle)
    ensures AtOf(states[i], f).Added? ==> i <= k < j && Rings(states[k], events[k], states[k + 1], f, all)
    decreases j - i
  {
    RunsKeepInv(states, events);
    assert Step(states[i], events[i], states[i + 1]);
    NotifyStep(states[i], events[i], f, all, holding);
    StepIsFutexStep(states[i], events[i]);
    k := i;
    if i + 1 < j {
      var later := NotifyEnds(states, events, i + 1, j, f, all, holding);
      k := if AtOf(states[i], f).Added? && events[i] != CallRing(f) then later else i;
    }
  }

  /** NotifyOne and NotifyAll raise val_ by one, then wake one or all on the bell, at event k, and return to the code they
      were called from, with the mutex if and only if it was held. */
  lemma NotifyCall(states: seq<State>, events: seq<Event>, i: nat, j: nat, f: Id, all: bool) returns (k: nat)
    requires Runs.IsRun(Init, Step, states, events) && i < |events| && events[i] == FetchAdd(f, all)
    requires Returns(states, f, i, j)
    ensures Cell(states[i + 1], VAL) == Cell(states[i], VAL) + 1
    ensures i < k < j && Rings(states[k], events[k], states[k + 1], f, all)
    ensures AtOf(states[j], f) == AtOf(states[i], f)
  {
    RunsKeepInv(states, events);
    assert Step(states[i], events[i], states[i + 1]);
    CellsMove(states[i], events[i]);
    k := NotifyEnds(states, events, i + 1, j, f, all, AtOf(states[i], f).Holding?);
  }

  // ----- when a call parks

  /** Whatever stage of Wait the fiber is at, this is the value that it has read. */
  ghost predicate HasNoticed(s: State, f: Id, value: int) {
    var at := AtOf(s, f);
    && (at.Noticed? || at.Belling? || at.InBell? ==> at.noticed == value)
    && ((at.Stored? || at.InWake?) && at.next.ToBell? ==> at.next.noticed == value)
  }

  lemma NoticedKept(s: State, e: Event, f: Id, value: int)
    requires HasNoticed(s, f, value) && Enabled(s, e) && e != LoadVal(f)
    ensures HasNoticed(Perform(s, e), f, value)
  {
    if Actor(e) != f {
      OthersStayWhereTheyAre(s, e, f);
    }
  }

  lemma NoticedAlong(states: seq<State>, events: seq<Event>, i: nat, j: nat, f: Id)
    requires Runs.IsRun(Init, Step, states, events) && i < j < |states| && events[i] == LoadVal(f)
    requires forall k :: i < k < j ==> events[k] != LoadVal(f)
    ensures HasNoticed(states[j], f, Cell(states[i], VAL))
  {
    RunsKeepInv(states, events);
    assert Step(states[i], events[i], states[i + 1]);
    var value := Cell(states[i], VAL);
    forall s, e, s' | HasNoticed(s, f, value) && Step(s, e, s') && e != LoadVal(f) ensures HasNoticed(s', f, value) {
      NoticedKept(s, e, f, value);
    }
    Histories.Lasts(Step, Inv, s => HasNoticed(s, f, value), e => e == LoadVal(f), states, events, i + 1, j);
  }

  lemma CheckParks(s: State, f: Id)
    requires Inv(s) && Enabled(s, Inner(F.CheckCell(f))) && AtOf(s, f).InBell?
    ensures var pc' := PcOf(Perform(s, Inner(F.CheckCell(f))), f);
            && (pc'.Parked? <==> Cell(s, VAL) == AtOf(s, f).noticed) && (pc'.Parked? ==> pc'.x == VAL)
  {
    assert Agree(AtOf(s, f), PcOf(s, f));
  }

  /** Wait is left parked on the bell exactly if val_ is still what it was when Wait read it, at event i. */
  lemma WaitParksIffUnchanged(states: seq<State>, events: seq<Event>, i: nat, j: nat, f: Id)
    requires Runs.IsRun(Init, Step, states, events) && i < j < |events|
    requires events[i] == LoadVal(f) && events[j] == Inner(F.CheckCell(f)) && AtOf(states[j], f).InBell?
    requires forall k :: i < k < j ==> events[k] != LoadVal(f)
    ensures PcOf(states[j + 1], f).Parked? <==> Cell(states[j], VAL) == Cell(states[i], VAL)
    ensures PcOf(states[j + 1], f).Parked? ==> PcOf(states[j + 1], f).x == VAL
  {
    RunsKeepInv(states, events);
    assert Step(states[j], events[j], states[j + 1]);
    NoticedAlong(states, events, i, j, f);
    CheckParks(states[j], f);
  }

  /** Lock is left parked exactly if the mutex is taken when it looks again. */
  lemma LockParksIffTaken(states: seq<State>, events: seq<Event>, j: nat, f: Id)
    requires Runs.IsRun(Init, Step, states, events) && j < |events|
    requires events[j] == Inner(F.CheckCell(f)) && AtOf(states[j], f).InPark?
    ensures PcOf(states[j + 1], f).Parked? <==> states[j].holder.Some?
    ensures PcOf(states[j + 1], f).Parked? ==> PcOf(states[j + 1], f).x == ACCESS
  {
    RunsKeepInv(states, events);
    assert Step(states[j], events[j], states[j + 1]);
    assert Agree(AtOf(states[j], f), PcOf(states[j], f));
  }

  /** Lock's exchange gets the mutex exactly if nobody has it. */
  lemma ExchangeWinsIffFree(states: seq<State>, events: seq<Event>, j: nat, f: Id)
    requires Runs.IsRun(Init, Step, states, events) && j < |events| && events[j] == Exchange(f)
    ensures states[j + 1].holder == Some(f) <==> states[j].holder == None
    ensures states[j].holder.Some? ==> states[j + 1].holder == states[j].holder && AtOf(states[j + 1], f).Failed?
  {
    RunsKeepInv(states, events);
    assert Step(states[j], events[j], states[j + 1]);
    assert Inv(states[j]);
  }

  // ----- nobody is stuck

  /** In every state of every run, a fiber that runs between two calls on the futexes can take its next step. */
  lemma RunningGetsOn(states: seq<State>, events: seq<Event>, i: nat, f: Id)
    requires Runs.IsRun(Init, Step, states, events) && i < |states| && f in states[i].at && PcOf(states[i], f).Running?
    ensures exists e: Event :: !e.Inner? && e.f == f && Enabled(states[i], e) && AtOf(Perform(states[i], e), f) != AtOf(states[i], f)
  {
    RunsKeepInv(states, events);
    var s := states[i];
    assert Agree(s.at[f], PcOf(s, f));
    var e := match s.at[f]
      case Idle => Event.Lock(f)
      case Exchanging(_) => Event.Exchange(f)
      case Failed => CallPark(f)
      case Holding => LoadVal(f)
      case Noticed(_) => Store(f)
      case Stored(_) => CallWake(f)
      case Belling(_) => CallBell(f)
      case _ => CallRing(f);
    assert Enabled(s, e) && AtOf(Perform(s, e), f) != AtOf(s, f);
  }
}
