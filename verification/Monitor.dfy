/** The fiber mutex and the condition variable used with it, on top of two futexes. Any number of fibers lock, unlock,
    wait and notify (with or without holding the mutex) in any order. Every event is at most one event of the futex
    model, so everything proved there holds here too. */
module Monitors {
  import F = Futexes
  import P = FutexProofs
  import opened Lists
  import Runs

  type Id = int

  const ACCESS: F.Addr := 0              // access_ of the mutex, 1 for true, with its waiter_
  const VAL: F.Addr := 1                 // val_ of the condition variable, with its bell_

  /** What follows an Unlock: its caller's own code, or the parking of a Wait that has noticed this value. */
  datatype Next = ToCaller | ToBell(noticed: int)

  /** Where a fiber is in the operations of the mutex and the condition variable. */
  datatype At =
    | Idle
    | Exchanging(retry: bool)            // Lock: about to exchange access_ with true, again after being released from waiter_
    | Failed                             // about to call waiter_.ParkIfEqual(true)
    | InPark                             // inside that call
    | Holding
    | Noticed(noticed: int)              // Wait: val_ read, about to unlock
    | Stored(next: Next)                 // Unlock: access_ is false, about to call waiter_.WakeOne
    | InWake(next: Next)
    | Belling(noticed: int)              // Wait: about to call bell_.ParkIfEqual(noticed)
    | InBell(noticed: int)
    | Added(value: int, all: bool, holding: bool)    // Notify: val_ is now value, about to wake on bell_
    | InRing(value: int, all: bool, holding: bool)

  datatype State = State(
    fx: F.State,
    at: map<Id, At>,
    // history
    holder: Option<Id>,
    swept: int)                          // every wait that read less than this has been or will be let go

  datatype Event =
    | Inner(e: F.Event)                  // a step inside the futexes, the executor or a fiber's own code
    | Lock(f: Id)
    | Exchange(f: Id)
    | CallPark(f: Id)
    | LoadVal(f: Id)
    | Store(f: Id)
    | CallWake(f: Id)
    | CallBell(f: Id)
    | FetchAdd(f: Id, all: bool)
    | CallRing(f: Id)

  ghost predicate Init(s: State) {
    && F.Init(s.fx) && ACCESS in s.fx.futexes && VAL in s.fx.futexes
    && Cell(s, ACCESS) == 0 && Cell(s, VAL) == 0
    && s.at == map[] && s.holder == None && s.swept == 0
  }

  ghost function Cell(s: State, x: F.Addr): int {
    F.FutexAt(s.fx, x).cell
  }

  ghost function AtOf(s: State, f: Id): At {
    if f in s.at then s.at[f] else Idle
  }

  ghost function PcOf(s: State, f: Id): F.Pc {
    F.PcOf(s.fx, f)
  }

  /** Everything but writing cells and calling futexes, which only the operations below do. */
  predicate IsInner(e: F.Event) {
    !e.Write? && !e.ParkIfEqual? && !e.Wake?
  }

  ghost predicate CanInner(s: State, e: F.Event) {
    && IsInner(e) && F.Enabled(s.fx, e)
    && (e.Yield? ==> AtOf(s, e.f).Idle? || AtOf(s, e.f).Holding?)
    && (e.Finish? ==> AtOf(s, e.f).Idle?)
  }

  /** Where a fiber is once ParkIfEqual or a wake has returned. */
  function Returned(at: At): At {
    match at
    case InPark => Exchanging(true)
    case InBell(_) => Exchanging(false)
    case InWake(ToCaller) => Idle
    case InWake(ToBell(noticed)) => Belling(noticed)
    case InRing(_, _, holding) => if holding then Holding else Idle
    case _ => at
  }

  /** The loop of a wake has found bell_'s queue empty. */
  ghost predicate Sweeps(s: State, e: F.Event) {
    e.WakeNext? && AtOf(s, e.f).InRing? && F.FutexAt(s.fx, VAL).queue == []
  }

  ghost function DoInner(s: State, e: F.Event): State
    requires CanInner(s, e)
  {
    State(
      F.Perform(s.fx, e),
      if e.Start? then s.at[e.f := Idle]
      else if e.Return? || e.WakeUnlock? then s.at[e.f := Returned(AtOf(s, e.f))]
      else s.at,
      s.holder,
      if Sweeps(s, e) then Cell(s, VAL) else s.swept)
  }

  ghost predicate Enabled(s: State, e: Event) {
    if e.Inner? then CanInner(s, e.e)
    else
      && e.f in s.at && PcOf(s, e.f).Running? && ACCESS in s.fx.futexes && VAL in s.fx.futexes
      && var at := s.at[e.f];
         match e
         case Lock(_) => at.Idle?
         case Exchange(_) => at.Exchanging?
         case CallPark(_) => at.Failed?
         case LoadVal(_) => at.Holding?
         case Store(_) => at.Holding? || at.Noticed?
         case CallWake(_) => at.Stored?
         case CallBell(_) => at.Belling?
         case FetchAdd(_, _) => at.Idle? || at.Holding?
         case CallRing(_) => at.Added?
  }

  /** The futex event that an event is, if any. */
  ghost function Below(s: State, e: Event): Option<F.Event>
    requires Enabled(s, e)
  {
    match e
    case Inner(e) => Some(e)
    case Lock(_) => None
    case Exchange(f) => Some(F.Write(f, ACCESS, 1))
    case CallPark(f) => Some(F.ParkIfEqual(f, ACCESS, 1))
    case LoadVal(_) => None
    case Store(f) => Some(F.Write(f, ACCESS, 0))
    case CallWake(f) => Some(F.Wake(f, ACCESS, false))
    case CallBell(f) => Some(F.ParkIfEqual(f, VAL, s.at[f].noticed))
    case FetchAdd(f, _) => Some(F.Write(f, VAL, Cell(s, VAL) + 1))
    case CallRing(f) => Some(F.Wake(f, VAL, s.at[f].all))
  }

  ghost function NextAt(s: State, e: Event): At
    requires Enabled(s, e) && !e.Inner?
  {
    var at := s.at[e.f];
    match e
    case Lock(_) => Exchanging(false)
    case Exchange(_) => if Cell(s, ACCESS) == 1 then Failed else Holding
    case CallPark(_) => InPark
    case LoadVal(_) => Noticed(Cell(s, VAL))
    case Store(_) => Stored(if at.Noticed? then ToBell(at.noticed) else ToCaller)
    case CallWake(_) => InWake(at.next)
    case CallBell(_) => InBell(at.noticed)
    case FetchAdd(_, all) => Added(Cell(s, VAL) + 1, all, at.Holding?)
    case CallRing(_) => InRing(at.value, at.all, at.holding)
  }

  ghost function NextHolder(s: State, e: Event): Option<Id>
    requires Enabled(s, e) && !e.Inner?
  {
    if e.Store? then None else if e.Exchange? && Cell(s, ACCESS) != 1 then Some(e.f) else s.holder
  }

  ghost function Perform(s: State, e: Event): State
    requires Enabled(s, e)
  {
    if e.Inner? then DoInner(s, e.e)
    else
      var below := Below(s, e);
      State(if below.Some? then F.Perform(s.fx, below.value) else s.fx,
            s.at[e.f := NextAt(s, e)], NextHolder(s, e), s.swept)
  }

  ghost predicate Step(s: State, e: Event, s': State) {
    Enabled(s, e) && s' == Perform(s, e)
  }

  /** Back from a park the fiber goes for the mutex: Lock again, Wait for the first time. */
  ghost predicate GoesForMutex(s: State, s': State, f: Id) {
    && (AtOf(s, f).InPark? ==> AtOf(s', f) == Exchanging(true))
    && (AtOf(s, f).InBell? ==> AtOf(s', f) == Exchanging(false))
  }

  lemma ReturnsGoForMutex(s: State, e: F.Event)
    requires CanInner(s, e) && e.Return?
    ensures GoesForMutex(s, DoInner(s, e), e.f)
  {
  }

  // ----- invariant

  ghost predicate ParkingAt(pc: F.Pc, x: F.Addr, expected: int) {
    || ((pc.Entering? || pc.Announced? || pc.Suspended? || pc.Linked? || pc.Parked?) && pc.x == x && pc.expected == expected)
    || ((pc.Refused? || pc.Popped? || pc.Woken? || pc.Relocking? || pc.Returning?) && pc.x == x)
  }

  ghost predicate WakingAt(pc: F.Pc, x: F.Addr, all: bool) {
    || ((pc.WakeEntering? || pc.Waking? || pc.Awaking?) && pc.x == x && pc.all == all)
    || (pc.Woke? && pc.x == x)
  }

  /** The two program counters of a fiber fit together. */
  ghost predicate Agree(at: At, pc: F.Pc) {
    match at
    case Idle => pc.Running? || pc.Yielding? || pc.ReadyToRun? || pc.Finished?
    case Holding => pc.Running? || pc.Yielding? || pc.ReadyToRun?
    case InPark => ParkingAt(pc, ACCESS, 1)
    case InBell(noticed) => ParkingAt(pc, VAL, noticed)
    case InWake(_) => WakingAt(pc, ACCESS, false)
    case InRing(_, all, _) => WakingAt(pc, VAL, all)
    case _ => pc.Running?
  }

  /** Between the exchange that got the mutex and the store that gives it up. */
  predicate Inside(at: At) {
    at.Holding? || at.Noticed? || (at.Added? && at.holding) || (at.InRing? && at.holding)
  }

  ghost predicate FutexInv(s: State) {
    F.Inv(s.fx) && ACCESS in s.fx.futexes && VAL in s.fx.futexes && s.at.Keys == s.fx.fibers.Keys
  }

  ghost predicate AgreeInv(s: State) {
    forall f :: f in s.at ==> Agree(s.at[f], PcOf(s, f))
  }

  ghost predicate HolderInv(s: State) {
    && Cell(s, ACCESS) == (if s.holder.Some? then 1 else 0)
    && (s.holder.Some? ==> Inside(AtOf(s, s.holder.value)))
    && forall f :: f in s.at && Inside(s.at[f]) ==> s.holder == Some(f)
  }

  ghost predicate ValueOk(at: At, value: int) {
    && (at.Noticed? || at.Belling? || at.InBell? ==> at.noticed <= value)
    && (at.Stored? && at.next.ToBell? ==> at.next.noticed <= value)
    && (at.InWake? && at.next.ToBell? ==> at.next.noticed <= value)
    && (at.Added? || at.InRing? ==> at.value <= value)
  }

  ghost predicate ValuesInv(s: State) {
    && s.swept <= Cell(s, VAL)
    && forall f :: f in s.at ==> ValueOk(s.at[f], Cell(s, VAL))
  }

  /** Bound to wake somebody from waiter_, or to look at the mutex again. */
  ghost predicate Committed(at: At, pc: F.Pc) {
    || at.Stored?
    || (at.InWake? && !pc.Woke?)
    || (at.InPark? && !pc.Entering? && !pc.Announced? && !pc.Suspended? && !pc.Parked?)
    || at == Exchanging(true)
  }

  ghost predicate WakeupInv(s: State) {
    Cell(s, ACCESS) == 0 && F.FutexAt(s.fx, ACCESS).queue != [] ==>
      exists f :: f in s.at && Committed(s.at[f], PcOf(s, f))
  }

  ghost predicate SweptInv(s: State) {
    forall f :: f in s.at && s.at[f].InBell? && PcOf(s, f).Parked? ==> s.swept <= s.at[f].noticed
  }

  /** A NotifyAll is past its loop only after a sweep that counts for it. */
  ghost predicate RungInv(s: State) {
    forall f :: f in s.at && s.at[f].InRing? && s.at[f].all && PcOf(s, f).Woke? ==> s.at[f].value <= s.swept
  }

  ghost predicate Inv(s: State) {
    RungInv(s) && FutexInv(s) && AgreeInv(s) && HolderInv(s) && ValuesInv(s) && WakeupInv(s) && SweptInv(s)
  }

  lemma InitHolds(s: State)
    requires Init(s)
    ensures Inv(s)
  {
    F.InitHolds(s.fx);
  }

  // ----- each event keeps it

  /** Every event is one event of the futex model or none. */
  lemma StepIsFutexStep(s: State, e: Event)
    requires Enabled(s, e)
    ensures var below := Below(s, e);
            if below.Some? then F.Step(s.fx, below.value, Perform(s, e).fx) else Perform(s, e).fx == s.fx
  {
  }

  /** What makes the next two lemmas apply in reachable states. */
  ghost predicate Framed(fs: F.State, e: F.Event) {
    && F.Enabled(fs, e)
    && (e.f in fs.fibers ==> F.PlaceOk(fs, e.f))
    && (e.WakeNext? ==> forall g :: g in F.FutexAt(fs, F.PcOf(fs, e.f).x).queue ==> g in fs.fibers)
    && (e.Awake? ==> F.PcOf(fs, e.f).node in fs.fibers)
  }

  lemma LocksStay(fs: F.State, e: F.Event)
    requires Framed(fs, e) && (P.UnderLock(e) || e.Announce? || e.Link? || e.Relock? || e.WakeLock?)
    ensures F.Perform(fs, e).futexes.Keys == fs.futexes.Keys
  {
  }

  /** No event adds or removes a futex, and only Go adds a fiber. */
  lemma FutexesStay(fs: F.State, e: F.Event)
    requires Framed(fs, e)
    ensures F.Perform(fs, e).futexes.Keys == fs.futexes.Keys
  {
    if P.UnderLock(e) || e.Announce? || e.Link? || e.Relock? || e.WakeLock? {
      LocksStay(fs, e);
    }
  }

  lemma ScheduleFibersStay(fs: F.State, e: F.Event)
    requires Framed(fs, e) && (e.WakeNext? || e.Awake? || e.YieldSchedule? || e.Refuse? || e.Start?)
    ensures F.Perform(fs, e).fibers.Keys == fs.fibers.Keys + (if e.Start? then {e.f} else {})
  {
  }

  lemma FibersStay(fs: F.State, e: F.Event)
    requires Framed(fs, e)
    ensures F.Perform(fs, e).fibers.Keys == fs.fibers.Keys + (if e.Start? then {e.f} else {})
  {
    if e.WakeNext? || e.Awake? || e.YieldSchedule? || e.Refuse? || e.Start? {
      ScheduleFibersStay(fs, e);
    }
  }

  lemma QueueCellsStay(fs: F.State, e: F.Event, x: F.Addr)
    requires F.Enabled(fs, e) && (e.Link? || e.CheckCell? || e.Return? || e.WakeNext?)
    ensures F.FutexAt(F.Perform(fs, e), x).cell == F.FutexAt(fs, x).cell
  {
  }

  lemma LockedCellsStay(fs: F.State, e: F.Event, x: F.Addr)
    requires F.Enabled(fs, e) && (P.UnderLock(e) || e.Announce? || e.Link? || e.Relock? || e.WakeLock?)
    ensures F.FutexAt(F.Perform(fs, e), x).cell == F.FutexAt(fs, x).cell
  {
    if e.Link? || e.CheckCell? || e.Return? || e.WakeNext? {
      QueueCellsStay(fs, e, x);
    }
  }

  /** Only Write changes a cell. */
  lemma CellsStay(fs: F.State, e: F.Event, x: F.Addr)
    requires F.Enabled(fs, e)
    ensures F.FutexAt(F.Perform(fs, e), x).cell == (if e.Write? && e.x == x then e.value else F.FutexAt(fs, x).cell)
  {
    if P.UnderLock(e) || e.Announce? || e.Link? || e.Relock? || e.WakeLock? {
      LockedCellsStay(fs, e, x);
    }
  }

  ghost predicate CellsStep(s: State, e: Event, s': State) {
    && Cell(s', ACCESS) == (if e.Exchange? then 1 else if e.Store? then 0 else Cell(s, ACCESS))
    && Cell(s', VAL) == (if e.FetchAdd? then Cell(s, VAL) + 1 else Cell(s, VAL))
  }

  lemma FutexInvStep(s: State, e: Event)
    requires FutexInv(s) && Enabled(s, e)
    ensures F.Inv(Perform(s, e).fx)
  {
    var below := Below(s, e);
    StepIsFutexStep(s, e);
    if below.Some? {
      P.StepKeepsInv(s.fx, below.value, Perform(s, e).fx);
    }
  }

  lemma FrameApplies(fs: F.State, e: F.Event)
    requires F.Inv(fs) && F.Enabled(fs, e)
    ensures Framed(fs, e)
  {
    if e.WakeNext? {
      assert F.PlaceOk(fs, e.f) && F.QueueOk(fs, fs.fibers[e.f].x);
    }
  }

  lemma CellsMove(s: State, e: Event)
    requires Enabled(s, e)
    ensures CellsStep(s, e, Perform(s, e))
  {
    var below := Below(s, e);
    if below.Some? {
      CellsStay(s.fx, below.value, ACCESS);
      CellsStay(s.fx, below.value, VAL);
    }
  }

  lemma KeysMove(s: State, e: Event)
    requires FutexInv(s) && Enabled(s, e)
    ensures ACCESS in Perform(s, e).fx.futexes && VAL in Perform(s, e).fx.futexes
    ensures Perform(s, e).at.Keys == Perform(s, e).fx.fibers.Keys
  {
    var below := Below(s, e);
    if below.Some? {
      FrameApplies(s.fx, below.value);
      FutexesStay(s.fx, below.value);
      FibersStay(s.fx, below.value);
    }
  }

  lemma AgreeOuter(s: State, e: Event, f: Id)
    requires Inv(s) && Enabled(s, e) && !e.Inner? && f in Perform(s, e).at
    ensures Agree(Perform(s, e).at[f], PcOf(Perform(s, e), f))
  {
    assert f in s.at ==> Agree(s.at[f], PcOf(s, f));
  }

  lemma AgreeStep(s: State, e: Event)
    requires Inv(s) && Enabled(s, e) && !e.Inner?
    ensures AgreeInv(Perform(s, e))
  {
    forall f | f in Perform(s, e).at ensures Agree(Perform(s, e).at[f], PcOf(Perform(s, e), f)) {
      AgreeOuter(s, e, f);
    }
  }

  /** The fiber whose move a futex event is, besides the one that performs it: the popped or scheduled node. */
  ghost function Partner(fs: F.State, e: F.Event): Id
    requires F.Enabled(fs, e)
  {
    var pc := F.PcOf(fs, e.f);
    if e.WakeNext? && F.FutexAt(fs, pc.x).queue != [] then F.FutexAt(fs, pc.x).queue[0]
    else if e.Awake? then pc.node
    else e.f
  }

  ghost predicate HandedOn(pc: F.Pc, pc': F.Pc) {
    || (pc.Parked? && pc'.Popped? && pc'.x == pc.x)
    || (pc.Popped? && pc'.Woken? && pc'.x == pc.x)
  }

  /** Nobody but the performer and its partner moves. */
  lemma OthersStay(fs: F.State, e: F.Event, g: Id)
    requires F.Enabled(fs, e) && g != e.f && g != Partner(fs, e)
    ensures F.PcOf(F.Perform(fs, e), g) == F.PcOf(fs, g)
  {
  }

  /** The partner goes from parked to popped to woken. */
  lemma PartnerMoves(fs: F.State, e: F.Event)
    requires F.Inv(fs) && F.Enabled(fs, e) && Partner(fs, e) != e.f
    ensures Partner(fs, e) in fs.fibers
    ensures HandedOn(F.PcOf(fs, Partner(fs, e)), F.PcOf(F.Perform(fs, e), Partner(fs, e)))
  {
    if e.WakeNext? {
      P.PoppedWasParked(fs, e.f);
    } else {
      assert F.PlaceOk(fs, e.f);
    }
  }

  ghost predicate MovesItself(s: State, e: F.Event) {
    && CanInner(s, e) && (e.f in s.at ==> Agree(s.at[e.f], PcOf(s, e.f))) && (e.f !in s.at ==> e.Start?)
    && (e.Awake? ==> PcOf(s, e.f).node != e.f)
    && (e.WakeNext? ==> e.f !in F.FutexAt(s.fx, PcOf(s, e.f).x).queue)
    && (e.Start? ==> e.f !in s.fx.fibers)
  }

  lemma InnerAgreeReturn(s: State, e: F.Event)
    requires MovesItself(s, e) && (e.Start? || e.Return? || e.WakeUnlock?)
    ensures e.f in DoInner(s, e).at && Agree(DoInner(s, e).at[e.f], PcOf(DoInner(s, e), e.f))
  {
  }

  lemma InnerAgreeSelf(s: State, e: F.Event)
    requires MovesItself(s, e)
    ensures e.f in DoInner(s, e).at && Agree(DoInner(s, e).at[e.f], PcOf(DoInner(s, e), e.f))
  {
    if e.Start? || e.Return? || e.WakeUnlock? {
      InnerAgreeReturn(s, e);
    } else {
      InnerAgreeInside(s, e);
    }
  }

  lemma InnerAgreeLocked(s: State, e: F.Event)
    requires MovesItself(s, e) && P.UnderLock(e) && !e.Return? && !e.WakeUnlock?
    ensures e.f in DoInner(s, e).at && Agree(DoInner(s, e).at[e.f], PcOf(DoInner(s, e), e.f))
  {
  }

  lemma InnerAgreeInside(s: State, e: F.Event)
    requires MovesItself(s, e) && !e.Start? && !e.Return? && !e.WakeUnlock?
    ensures e.f in DoInner(s, e).at && Agree(DoInner(s, e).at[e.f], PcOf(DoInner(s, e), e.f))
  {
    if P.UnderLock(e) {
      InnerAgreeLocked(s, e);
    }
  }

  lemma SelfIsNoPartner(s: State, e: F.Event)
    requires F.Inv(s.fx) && F.Enabled(s.fx, e)
    ensures e.Awake? ==> PcOf(s, e.f).node != e.f
    ensures e.WakeNext? ==> e.f !in F.FutexAt(s.fx, PcOf(s, e.f).x).queue
  {
    if e.Awake? {
      assert F.PlaceOk(s.fx, e.f);
    } else if e.WakeNext? {
      assert F.PlaceOk(s.fx, e.f) && F.QueueOk(s.fx, PcOf(s, e.f).x);
    }
  }

  lemma OtherMoves(fs: F.State, e: F.Event, g: Id)
    requires F.Inv(fs) && F.Enabled(fs, e) && g != e.f
    ensures F.PcOf(F.Perform(fs, e), g) == F.PcOf(fs, g) || HandedOn(F.PcOf(fs, g), F.PcOf(F.Perform(fs, e), g))
  {
    if g == Partner(fs, e) {
      PartnerMoves(fs, e);
    } else {
      OthersStay(fs, e, g);
    }
  }

  lemma HandedOnFits(at: At, pc: F.Pc, pc': F.Pc)
    requires Agree(at, pc) && HandedOn(pc, pc')
    ensures Agree(at, pc') && !pc'.Parked? && (Committed(at, pc) ==> Committed(at, pc'))
  {
  }

  lemma InnerAgreeOther(s: State, e: F.Event, f: Id)
    requires F.Inv(s.fx) && CanInner(s, e) && f in s.at && f != e.f && Agree(s.at[f], PcOf(s, f))
    ensures Agree(s.at[f], PcOf(DoInner(s, e), f))
    ensures PcOf(DoInner(s, e), f).Parked? ==> PcOf(s, f).Parked?
    ensures Committed(s.at[f], PcOf(s, f)) ==> Committed(s.at[f], PcOf(DoInner(s, e), f))
  {
    OtherMoves(s.fx, e, f);
    var pc, pc' := F.PcOf(s.fx, f), F.PcOf(F.Perform(s.fx, e), f);
    if pc != pc' {
      HandedOnFits(s.at[f], pc, pc');
    }
  }

  lemma InnerAgree(s: State, e: F.Event)
    requires Inv(s) && CanInner(s, e)
    ensures AgreeInv(DoInner(s, e))
  {
    SelfIsNoPartner(s, e);
    if e.f in s.at {
      assert Agree(s.at[e.f], PcOf(s, e.f));
    }
    InnerAgreeSelf(s, e);
    var s' := DoInner(s, e);
    forall f | f in s'.at && f != e.f ensures Agree(s'.at[f], PcOf(s', f)) {
      InnerAgreeOther(s, e, f);
    }
  }

  /** No step below the operations of the mutex lets anybody in or out. */
  lemma InsideStays(s: State, e: F.Event, f: Id)
    requires CanInner(s, e) && (e.f in s.at ==> Agree(s.at[e.f], PcOf(s, e.f)))
    requires (e.Start? ==> e.f !in s.at) && (e.f !in s.at ==> e.Start?)
    ensures Inside(AtOf(DoInner(s, e), f)) <==> Inside(AtOf(s, f))
  {
  }

  lemma HolderFrame(s: State, s': State)
    requires HolderInv(s) && s'.holder == s.holder && Cell(s', ACCESS) == Cell(s, ACCESS)
    requires forall f :: Inside(AtOf(s', f)) <==> Inside(AtOf(s, f))
    ensures HolderInv(s')
  {
    forall f | f in s'.at && Inside(s'.at[f]) ensures s'.holder == Some(f) {
      assert Inside(AtOf(s', f)) && Inside(AtOf(s, f));
    }
  }

  lemma InnerHolder(s: State, e: F.Event)
    requires HolderInv(s) && CanInner(s, e) && (e.f in s.at ==> Agree(s.at[e.f], PcOf(s, e.f)))
    requires CellsStep(s, Inner(e), DoInner(s, e)) && (e.Start? ==> e.f !in s.at) && (e.f !in s.at ==> e.Start?)
    ensures HolderInv(DoInner(s, e))
  {
    forall f ensures Inside(AtOf(DoInner(s, e), f)) <==> Inside(AtOf(s, f)) {
      InsideStays(s, e, f);
    }
    HolderFrame(s, DoInner(s, e));
  }

  lemma OuterHolder(s: State, e: Event)
    requires HolderInv(s) && Enabled(s, e) && !e.Inner? && CellsStep(s, e, Perform(s, e))
    ensures HolderInv(Perform(s, e))
  {
  }

  lemma InnerValues(s: State, e: F.Event)
    requires ValuesInv(s) && CanInner(s, e) && CellsStep(s, Inner(e), DoInner(s, e))
    ensures ValuesInv(DoInner(s, e))
  {
  }

  lemma OuterValues(s: State, e: Event)
    requires ValuesInv(s) && Enabled(s, e) && !e.Inner? && CellsStep(s, e, Perform(s, e))
    ensures ValuesInv(Perform(s, e))
  {
  }

  /** A sweep finds nobody parked on the bell. */
  lemma NobodyParked(s: State, f: Id)
    requires Inv(s) && F.FutexAt(s.fx, VAL).queue == [] && f in s.at && PcOf(s, f).Parked?
    ensures PcOf(s, f).x != VAL
  {
    assert F.PlaceOk(s.fx, f);
  }

  lemma InnerSwept(s: State, e: F.Event)
    requires Inv(s) && CanInner(s, e)
    ensures SweptInv(DoInner(s, e))
  {
    var s' := DoInner(s, e);
    forall f | f in s'.at && s'.at[f].InBell? && PcOf(s', f).Parked? ensures s'.swept <= s'.at[f].noticed {
      assert f in s.at && Agree(s.at[f], PcOf(s, f));
      if f != e.f {
        InnerAgreeOther(s, e, f);
        if Sweeps(s, e) {
          NobodyParked(s, f);
        }
      }
    }
  }

  lemma RungSelf(s: State, e: F.Event)
    requires CanInner(s, e) && e.f in s.at && Agree(s.at[e.f], PcOf(s, e.f)) && ValueOk(s.at[e.f], Cell(s, VAL))
    requires DoInner(s, e).at[e.f] == s.at[e.f] && s.at[e.f].InRing? && s.at[e.f].all
    requires PcOf(DoInner(s, e), e.f).Woke? && !PcOf(s, e.f).Woke?
    ensures s.at[e.f].value <= DoInner(s, e).swept
  {
  }

  lemma InnerRung(s: State, e: F.Event, f: Id)
    requires Inv(s) && CanInner(s, e)
    requires f in DoInner(s, e).at && DoInner(s, e).at[f].InRing? && DoInner(s, e).at[f].all
    requires PcOf(DoInner(s, e), f).Woke?
    ensures DoInner(s, e).at[f].value <= DoInner(s, e).swept
  {
    assert f in s.at && Agree(s.at[f], PcOf(s, f)) && ValueOk(s.at[f], Cell(s, VAL));
    if f != e.f {
      OtherMoves(s.fx, e, f);
    } else if !PcOf(s, f).Woke? {
      RungSelf(s, e);
    }
  }

  lemma InnerRungs(s: State, e: F.Event)
    requires Inv(s) && CanInner(s, e)
    ensures RungInv(DoInner(s, e))
  {
    var s' := DoInner(s, e);
    forall f | f in s'.at && s'.at[f].InRing? && s'.at[f].all && PcOf(s', f).Woke? ensures s'.at[f].value <= s'.swept {
      InnerRung(s, e, f);
    }
  }

  lemma OuterMarks(s: State, e: Event)
    requires SweptInv(s) && RungInv(s) && Enabled(s, e) && !e.Inner?
    ensures SweptInv(Perform(s, e)) && RungInv(Perform(s, e))
  {
  }

  lemma OuterCommitment(s: State, e: Event, f: Id)
    requires Inv(s) && Enabled(s, e) && !e.Inner? && !e.Store? && Cell(Perform(s, e), ACCESS) == 0
    requires f in s.at && Committed(s.at[f], PcOf(s, f))
    ensures f in Perform(s, e).at && Committed(Perform(s, e).at[f], PcOf(Perform(s, e), f))
  {
    CellsMove(s, e);
  }

  lemma OuterQueue(s: State, e: Event)
    requires Enabled(s, e) && !e.Inner?
    ensures F.FutexAt(Perform(s, e).fx, ACCESS).queue == F.FutexAt(s.fx, ACCESS).queue
  {
  }

  lemma OuterWakeup(s: State, e: Event)
    requires Inv(s) && Enabled(s, e) && !e.Inner?
    ensures WakeupInv(Perform(s, e))
  {
    var s' := Perform(s, e);
    CellsMove(s, e);
    OuterQueue(s, e);
    if Cell(s', ACCESS) == 0 && F.FutexAt(s'.fx, ACCESS).queue != [] {
      if e.Store? {
        assert Committed(s'.at[e.f], PcOf(s', e.f));
      } else {
        var f :| f in s.at && Committed(s.at[f], PcOf(s, f));
        OuterCommitment(s, e, f);
      }
    }
  }

  /** When a committed fiber moves itself it stays committed, or its wake has popped somebody, who now is, or the
      queue is empty. */
  lemma CommitmentPassesOn(s: State, e: F.Event)
    requires CanInner(s, e) && Cell(s, ACCESS) == 0 && e.f in s.at && Committed(s.at[e.f], PcOf(s, e.f))
    requires Agree(s.at[e.f], PcOf(s, e.f)) && (e.WakeNext? ==> F.FutexAt(s.fx, PcOf(s, e.f).x).queue == [])
    requires !e.Awake?
    requires F.FutexAt(F.Perform(s.fx, e), ACCESS).queue != []
    ensures e.f in DoInner(s, e).at && Committed(DoInner(s, e).at[e.f], PcOf(DoInner(s, e), e.f))
  {
  }

  lemma PartnerDiffers(s: State, e: F.Event)
    requires F.Inv(s.fx) && F.Enabled(s.fx, e) && (e.Awake? || (e.WakeNext? && P.Popping(s.fx, e.f)))
    ensures Partner(s.fx, e) != e.f
  {
    if e.WakeNext? {
      P.PoppedWasParked(s.fx, e.f);
    } else {
      assert F.PlaceOk(s.fx, e.f);
    }
  }

  lemma PartnerIsCommitted(s: State, e: F.Event)
    requires Inv(s) && CanInner(s, e) && Partner(s.fx, e) != e.f
    requires e.f in s.at && Committed(s.at[e.f], PcOf(s, e.f))
    ensures Partner(s.fx, e) in DoInner(s, e).at
    ensures Committed(DoInner(s, e).at[Partner(s.fx, e)], PcOf(DoInner(s, e), Partner(s.fx, e)))
  {
    PartnerMoves(s.fx, e);
    assert Agree(s.at[e.f], PcOf(s, e.f)) && Agree(s.at[Partner(s.fx, e)], PcOf(s, Partner(s.fx, e)));
    if e.Awake? {
      assert F.PlaceOk(s.fx, e.f);
    }
  }

  /** A queue grows by a fiber that is about to look at the cell. */
  lemma FirstInQueue(s: State, e: F.Event)
    requires Inv(s) && CanInner(s, e) && F.FutexAt(s.fx, ACCESS).queue == []
    requires F.FutexAt(F.Perform(s.fx, e), ACCESS).queue != []
    ensures e.f in DoInner(s, e).at && Committed(DoInner(s, e).at[e.f], PcOf(DoInner(s, e), e.f))
  {
    assert e.Link?;
    assert Agree(s.at[e.f], PcOf(s, e.f));
  }

  lemma CommitmentHandedOn(s: State, e: F.Event)
    requires Inv(s) && CanInner(s, e) && e.f in s.at && Committed(s.at[e.f], PcOf(s, e.f))
    requires e.Awake? || (e.WakeNext? && P.Popping(s.fx, e.f))
    ensures WakeupInv(DoInner(s, e))
  {
    PartnerDiffers(s, e);
    PartnerIsCommitted(s, e);
  }

  lemma CommitmentOfOther(s: State, e: F.Event, f: Id)
    requires Inv(s) && CanInner(s, e) && f in s.at && f != e.f && Committed(s.at[f], PcOf(s, f))
    ensures WakeupInv(DoInner(s, e))
  {
    InnerAgreeOther(s, e, f);
    assert f in DoInner(s, e).at && DoInner(s, e).at[f] == s.at[f];
  }

  lemma CommitmentKept(s: State, e: F.Event)
    requires Inv(s) && CanInner(s, e) && Cell(s, ACCESS) == 0 && F.FutexAt(s.fx, ACCESS).queue != []
    requires F.FutexAt(DoInner(s, e).fx, ACCESS).queue != []
    ensures WakeupInv(DoInner(s, e))
  {
    var f :| f in s.at && Committed(s.at[f], PcOf(s, f));
    if f != e.f {
      CommitmentOfOther(s, e, f);
    } else if e.Awake? || (e.WakeNext? && P.Popping(s.fx, f)) {
      CommitmentHandedOn(s, e);
    } else {
      assert Agree(s.at[f], PcOf(s, f));
      CommitmentPassesOn(s, e);
    }
  }

  lemma InnerWakeup(s: State, e: F.Event)
    requires Inv(s) && CanInner(s, e)
    ensures WakeupInv(DoInner(s, e))
  {
    var s' := DoInner(s, e);
    CellsMove(s, Inner(e));
    if Cell(s', ACCESS) == 0 && F.FutexAt(s'.fx, ACCESS).queue != [] {
      if F.FutexAt(s.fx, ACCESS).queue == [] {
        FirstInQueue(s, e);
      } else {
        CommitmentKept(s, e);
      }
    }
  }

  lemma StepKeepsInv(s: State, e: Event, s': State)
    requires Inv(s) && Step(s, e, s')
    ensures Inv(s')
  {
    FutexInvStep(s, e);
    CellsMove(s, e);
    KeysMove(s, e);
    if e.Inner? {
      InnerHolder(s, e.e);
      InnerValues(s, e.e);
      InnerSwept(s, e.e);
      InnerRungs(s, e.e);
      InnerAgree(s, e.e);
      InnerWakeup(s, e.e);
    } else {
      OuterHolder(s, e);
      OuterValues(s, e);
      OuterMarks(s, e);
      AgreeStep(s, e);
      OuterWakeup(s, e);
    }
  }

  lemma RunsKeepInv(states: seq<State>, events: seq<Event>)
    requires Runs.IsRun(Init, Step, states, events)
    ensures forall i :: 0 <= i < |states| ==> Inv(states[i])
  {
    forall s | Init(s) ensures Inv(s) { InitHolds(s); }
    forall s, e, s' | Inv(s) && Step(s, e, s') ensures Inv(s') { StepKeepsInv(s, e, s'); }
    Runs.Invariance(Init, Step, Inv, states, events);
  }

  // ----- the mutex, on every run

  /** At most one fiber is between getting the mutex and giving it up. */
  lemma MutualExclusion(states: seq<State>, events: seq<Event>, i: nat, f: Id, g: Id)
    requires Runs.IsRun(Init, Step, states, events) && i < |states|
    requires f in states[i].at && Inside(states[i].at[f]) && g in states[i].at && Inside(states[i].at[g])
    ensures f == g
  {
    RunsKeepInv(states, events);
  }

  /** While somebody waits in the queue and the mutex is free, some unlocker has yet to wake, or some released fiber
      has yet to retry its exchange. */
  lemma NoLostWakeup(states: seq<State>, events: seq<Event>, i: nat)
    requires Runs.IsRun(Init, Step, states, events) && i < |states|
    requires Cell(states[i], ACCESS) == 0 && F.FutexAt(states[i].fx, ACCESS).queue != []
    ensures exists f :: f in states[i].at && Committed(states[i].at[f], PcOf(states[i], f))
  {
    RunsKeepInv(states, events);
  }

  /** Whenever a fiber waits for the mutex, some fiber busy with it is not parked: waiters never all sleep. */
  lemma SomebodyIsAwake(states: seq<State>, events: seq<Event>, i: nat, f: Id)
    requires Runs.IsRun(Init, Step, states, events) && i < |states|
    requires f in states[i].at && states[i].at[f].InPark?
    ensures exists g :: g in states[i].at && !states[i].at[g].Idle? && !PcOf(states[i], g).Parked?
  {
    RunsKeepInv(states, events);
    var s := states[i];
    if s.holder.Some? {
      assert Agree(s.at[s.holder.value], PcOf(s, s.holder.value));
    } else if PcOf(s, f).Parked? {
      assert F.PlaceOk(s.fx, f) && Agree(s.at[f], PcOf(s, f));
      var g :| g in s.at && Committed(s.at[g], PcOf(s, g));
      assert Agree(s.at[g], PcOf(s, g));
    }
  }

  // ----- the condition variable, on every run

  ghost predicate SweptTo(s: State, value: int) {
    value <= s.swept
  }

  lemma SweptForever(states: seq<State>, events: seq<Event>, i: nat, j: nat, value: int)
    requires Runs.IsRun(Init, Step, states, events) && i <= j < |states| && SweptTo(states[i], value)
    ensures SweptTo(states[j], value)
  {
    RunsKeepInv(states, events);
    forall s, e, s' | Inv(s) && SweptTo(s, value) && Step(s, e, s') ensures SweptTo(s', value) { }
    Runs.Stability(Init, Step, Inv, s => SweptTo(s, value), states, events, i, j);
  }

  /** Once a NotifyAll has returned, no Wait that had read val_ before its increment is parked, and none ever will be:
      such a Wait read less than the notifier wrote. */
  lemma NotifyAllLetsEveryoneGo(states: seq<State>, events: seq<Event>, i: nat, j: nat, f: Id, g: Id)
    requires Runs.IsRun(Init, Step, states, events) && i < j < |states|
    requires events[i] == Inner(F.WakeUnlock(f)) && AtOf(states[i], f).InRing? && AtOf(states[i], f).all
    requires g in states[j].at && states[j].at[g].InBell? && states[j].at[g].noticed < AtOf(states[i], f).value
    ensures !PcOf(states[j], g).Parked?
  {
    RunsKeepInv(states, events);
    assert Step(states[i], events[i], states[i + 1]);
    SweptForever(states, events, i, j, AtOf(states[i], f).value);
  }

  /** The same for a NotifyOne that finds nobody to wake. */
  lemma NotifyOneOnEmptyBell(states: seq<State>, events: seq<Event>, i: nat, j: nat, f: Id, g: Id)
    requires Runs.IsRun(Init, Step, states, events) && i < j < |states|
    requires events[i] == Inner(F.WakeNext(f)) && AtOf(states[i], f).InRing?
    requires F.FutexAt(states[i].fx, VAL).queue == []
    requires g in states[j].at && states[j].at[g].InBell? && states[j].at[g].noticed < AtOf(states[i], f).value
    ensures !PcOf(states[j], g).Parked?
  {
    RunsKeepInv(states, events);
    assert Step(states[i], events[i], states[i + 1]);
    SweptForever(states, events, i + 1, j, AtOf(states[i], f).value);
  }

  lemma BellOrder(s: State, g: Id, h: Id)
    requires Inv(s) && F.FutexAt(s.fx, VAL).queue != [] && g == F.FutexAt(s.fx, VAL).queue[0] && h != g
    requires AtOf(s, h).InBell? && PcOf(s, h).Parked? && PcOf(s, g).Parked?
    ensures PcOf(s, g).stamp < PcOf(s, h).stamp
  {
    assert Agree(AtOf(s, h), PcOf(s, h)) && F.PlaceOk(s.fx, h) && F.QueueOk(s.fx, VAL);
  }

  /** The notifier stands at the head of the bell's queue, where a fiber is parked. */
  lemma BellWaiter(s: State, f: Id)
    requires Inv(s) && Enabled(s, Inner(F.WakeNext(f))) && AtOf(s, f).InRing? && !AtOf(s, f).all
    requires F.FutexAt(s.fx, VAL).queue != []
    ensures PcOf(s, f) == F.Waking(VAL, false)
    ensures var g := F.FutexAt(s.fx, VAL).queue[0]; g != f && AtOf(s, g).InBell? && PcOf(s, g).Parked?
  {
    assert Agree(AtOf(s, f), PcOf(s, f));
    P.PoppedWasParked(s.fx, f);
    assert Agree(AtOf(s, F.FutexAt(s.fx, VAL).queue[0]), PcOf(s, F.FutexAt(s.fx, VAL).queue[0]));
  }

  lemma BellPops(s: State, f: Id)
    requires Enabled(s, Inner(F.WakeNext(f))) && PcOf(s, f) == F.Waking(VAL, false)
    requires F.FutexAt(s.fx, VAL).queue != [] && F.FutexAt(s.fx, VAL).queue[0] != f
    ensures var s' := Perform(s, Inner(F.WakeNext(f))); var g := F.FutexAt(s.fx, VAL).queue[0];
            && PcOf(s', g) == F.Popped(VAL, f) && PcOf(s', f) == F.Awaking(VAL, false, g)
            && forall h :: h != f && h != g ==> PcOf(s', h) == PcOf(s, h) && AtOf(s', h) == AtOf(s, h)
  {
  }

  /** A NotifyOne that finds waiters releases the one that has waited longest, and that one only. */
  lemma NotifyOneReleasesOldest(states: seq<State>, events: seq<Event>, i: nat, f: Id)
    requires Runs.IsRun(Init, Step, states, events) && i < |events|
    requires events[i] == Inner(F.WakeNext(f)) && AtOf(states[i], f).InRing? && !AtOf(states[i], f).all
    requires F.FutexAt(states[i].fx, VAL).queue != []
    ensures var s, s' := states[i], states[i + 1]; var g := F.FutexAt(s.fx, VAL).queue[0];
            && AtOf(s, g).InBell? && PcOf(s, g).Parked? && PcOf(s', g) == F.Popped(VAL, f)
            && PcOf(s', f) == F.Awaking(VAL, false, g)
            && (forall h :: h != f && h != g ==> PcOf(s', h) == PcOf(s, h) && AtOf(s', h) == AtOf(s, h))
            && (forall h :: h != g && AtOf(s, h).InBell? && PcOf(s, h).Parked? ==> PcOf(s, g).stamp < PcOf(s, h).stamp)
  {
    RunsKeepInv(states, events);
    var s := states[i];
    assert Step(s, events[i], states[i + 1]);
    BellWaiter(s, f);
    BellPops(s, f);
    var g := F.FutexAt(s.fx, VAL).queue[0];
    forall h | h != g && AtOf(s, h).InBell? && PcOf(s, h).Parked? ensures PcOf(s, g).stamp < PcOf(s, h).stamp {
      BellOrder(s, g, h);
    }
  }

  ghost predicate ValAtLeast(s: State, value: int) {
    value <= Cell(s, VAL)
  }

  /** A Wait that read val_ before a notifier's increment noticed less than the notifier wrote. */
  lemma EarlierReadIsLess(states: seq<State>, events: seq<Event>, i: nat, j: nat, f: Id, g: Id, all: bool)
    requires Runs.IsRun(Init, Step, states, events) && i < j < |events|
    requires events[i] == LoadVal(g) && events[j] == FetchAdd(f, all)
    ensures AtOf(states[i + 1], g).Noticed? && AtOf(states[j + 1], f).Added?
    ensures AtOf(states[i + 1], g).noticed < AtOf(states[j + 1], f).value
  {
    RunsKeepInv(states, events);
    assert Step(states[i], events[i], states[i + 1]) && Step(states[j], events[j], states[j + 1]);
    var value := Cell(states[i], VAL);
    forall s, e, s' | Inv(s) && ValAtLeast(s, value) && Step(s, e, s') ensures ValAtLeast(s', value) {
      CellsMove(s, e);
    }
    Runs.Stability(Init, Step, Inv, s => ValAtLeast(s, value), states, events, i, j);
  }

  // ----- refinement

  /** Seen from below, a run of mutex and condition variable is a run of the futexes, so whatever holds on every run
      of the futexes holds here. */
  lemma ProjectsToFutexRun(states: seq<State>, events: seq<Event>) returns (below: seq<F.State>, belowEvents: seq<F.Event>)
    requires Runs.IsRun(Init, Step, states, events)
    ensures Runs.IsRun(F.Init, F.Step, below, belowEvents)
    ensures below[|below| - 1] == states[|states| - 1].fx
  {
    RunsKeepInv(states, events);
    forall s, e, s' | Inv(s) && Step(s, e, s') && Futex(s') != Futex(s) ensures exists fe :: F.Step(Futex(s), fe, Futex(s')) {
      StepIsFutexStep(s, e);
      assert F.Step(Futex(s), Below(s, e).value, Futex(s'));
    }
    below, belowEvents := Runs.Projection(Init, Step, F.Init, F.Step, Inv, Futex, states, events);
  }

  ghost function Futex(s: State): F.State {
    s.fx
  }
}
