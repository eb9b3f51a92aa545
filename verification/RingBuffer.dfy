/** The work-stealing queue: one producer, any number of consumers, every atomic load, store, add and
    compare-exchange one event. Indices are unbounded and memory is sequentially consistent. */
module RingBuffer {
  import Runs

  type Id = int
  type Item = int

  /** The producer, by its next atomic action. full remembers whether the queue was full when begin_ was loaded. */
  datatype Producer =
    | Quiet
    | PushBegin(item: Item)
    | PushEnd(item: Item, begin: nat, full: bool)
    | PushStore(item: Item, end: nat)
    | PushPublish(item: Item, end: nat)
    | ManyEnd(items: seq<Item>)
    | ManyCheck(items: seq<Item>, end: nat)
    | ManyStore(items: seq<Item>, end: nat, stored: nat)
    | Aborted                 // the assertion of PushMany has failed

  /** A consumer, by its next atomic action. */
  datatype Consumer =
    | Idle
    | PopBegin
    | PopEnd(begin: nat)
    | PopRead(begin: nat)
    | PopAdvance(begin: nat, item: Item)
    | GrabBegin(room: nat)
    | GrabEnd(room: nat, begin: nat)
    | GrabRead(room: nat, begin: nat, limit: nat, buffer: seq<Item>)
    | SizeEnd
    | SizeBegin(end: nat)

  datatype State = State(
    capacity: nat,
    slots: seq<Item>,
    begin: nat,
    end: nat,
    producer: Producer,
    consumers: map<Id, Consumer>,
    pushed: seq<Item>,        // history: items in the order they were published
    taken: seq<Item>)         // history: items in the order they were won by compare-exchange

  datatype Event =
    | CallTryPush(item: Item)
    | PushLoadBegin
    | PushLoadEnd             // full: TryPush returns false
    | StoreItem
    | Publish                 // TryPush returns true
    | CallPushMany(items: seq<Item>)
    | ManyLoadEnd
    | CheckRoom
    | StoreNext
    | PublishMany
    | CallTryPop(c: Id)
    | PopLoadBegin(c: Id)
    | PopLoadEnd(c: Id)       // empty: TryPop returns nullptr
    | PopLoadItem(c: Id)
    | PopExchange(c: Id, spurious: bool)
    | CallGrab(c: Id, room: nat)
    | GrabLoadBegin(c: Id)
    | GrabLoadEnd(c: Id)      // empty: Grab returns 0
    | GrabLoadItem(c: Id)
    | GrabExchange(c: Id)
    | CallLowSize(c: Id)
    | SizeLoadEnd(c: Id)
    | SizeLoadBegin(c: Id)    // LowSize returns

  ghost predicate Init(s: State) {
    && s.capacity > 0 && |s.slots| == s.capacity
    && s.begin == s.end == 0 && s.producer == Quiet
    && (forall c :: c in s.consumers ==> s.consumers[c] == Idle)
    && s.pushed == [] && s.taken == []
  }

  ghost predicate Is(s: State, c: Id, pc: Consumer) {
    c in s.consumers && s.consumers[c] == pc
  }

  ghost predicate Enabled(s: State, e: Event) {
    match e
    case CallTryPush(item) => s.producer.Quiet?
    case PushLoadBegin => s.producer.PushBegin?
    case PushLoadEnd => s.producer.PushEnd?
    case StoreItem => s.producer.PushStore? && s.capacity == |s.slots| > 0
    case Publish => s.producer.PushPublish?
    case CallPushMany(items) => s.producer.Quiet?
    case ManyLoadEnd => s.producer.ManyEnd?
    case CheckRoom => s.producer.ManyCheck?
    case StoreNext =>
      s.producer.ManyStore? && s.producer.stored < |s.producer.items| && s.capacity == |s.slots| > 0
    case PublishMany => s.producer.ManyStore? && s.producer.stored >= |s.producer.items|
    case CallTryPop(c) => Is(s, c, Idle)
    case PopLoadBegin(c) => Is(s, c, PopBegin)
    case PopLoadEnd(c) => c in s.consumers && s.consumers[c].PopEnd?
    case PopLoadItem(c) => c in s.consumers && s.consumers[c].PopRead? && s.capacity == |s.slots| > 0
    case PopExchange(c, spurious) => c in s.consumers && s.consumers[c].PopAdvance?
    case CallGrab(c, room) => Is(s, c, Idle)
    case GrabLoadBegin(c) => c in s.consumers && s.consumers[c].GrabBegin?
    case GrabLoadEnd(c) => c in s.consumers && s.consumers[c].GrabEnd?
    case GrabLoadItem(c) =>
      && c in s.consumers && s.consumers[c].GrabRead? && |s.consumers[c].buffer| < s.consumers[c].limit
      && s.capacity == |s.slots| > 0
    case GrabExchange(c) =>
      c in s.consumers && s.consumers[c].GrabRead? && |s.consumers[c].buffer| >= s.consumers[c].limit
    case CallLowSize(c) => Is(s, c, Idle)
    case SizeLoadEnd(c) => Is(s, c, SizeEnd)
    case SizeLoadBegin(c) => c in s.consumers && s.consumers[c].SizeBegin?
  }

  ghost function Set(s: State, c: Id, pc: Consumer): State {
    s.(consumers := s.consumers[c := pc])
  }

  ghost function DoStoreItem(s: State): State
    requires Enabled(s, StoreItem)
  {
    var p := s.producer;
    s.(slots := s.slots[p.end % s.capacity := p.item], producer := PushPublish(p.item, p.end))
  }

  ghost predicate HasRoom(s: State, end: nat, items: seq<Item>) {
    end + |items| <= s.begin + s.capacity
  }

  ghost function DoCheckRoom(s: State): Producer
    requires Enabled(s, CheckRoom)
  {
    var p := s.producer;
    if HasRoom(s, p.end, p.items) then ManyStore(p.items, p.end, 0) else Aborted
  }

  ghost function DoStoreNext(s: State): State
    requires Enabled(s, StoreNext)
  {
    var p := s.producer;
    s.(slots := s.slots[(p.end + p.stored) % s.capacity := p.items[p.stored]], producer := p.(stored := p.stored + 1))
  }

  ghost function DoPublish(s: State, items: seq<Item>): State {
    s.(end := s.end + |items|, pushed := s.pushed + items, producer := Quiet)
  }

  ghost function DoAdvance(s: State, c: Id, items: seq<Item>): State {
    s.(begin := s.begin + |items|, taken := s.taken + items, consumers := s.consumers[c := Idle])
  }

  ghost function DoPopExchange(s: State, c: Id, spurious: bool): State
    requires Enabled(s, PopExchange(c, spurious))
  {
    var pc := s.consumers[c];
    if pc.begin != s.begin || spurious then Set(s, c, PopBegin) else DoAdvance(s, c, [pc.item])
  }

  ghost function DoGrabLoadEnd(s: State, c: Id): State
    requires Enabled(s, GrabLoadEnd(c))
  {
    var pc := s.consumers[c];
    if s.end <= pc.begin then Set(s, c, Idle)
    else
      var lim := if pc.room < s.end - pc.begin then pc.room else s.end - pc.begin;
      Set(s, c, GrabRead(pc.room, pc.begin, lim, []))
  }

  ghost function DoGrabLoadItem(s: State, c: Id): State
    requires Enabled(s, GrabLoadItem(c))
  {
    var pc := s.consumers[c];
    Set(s, c, pc.(buffer := pc.buffer + [s.slots[(pc.begin + |pc.buffer|) % s.capacity]]))
  }

  ghost function DoGrabExchange(s: State, c: Id): State
    requires Enabled(s, GrabExchange(c))
  {
    var pc := s.consumers[c];
    if pc.begin != s.begin then Set(s, c, GrabBegin(pc.room)) else DoAdvance(s, c, pc.buffer)
  }

  ghost function Perform(s: State, e: Event): State
    requires Enabled(s, e)
  {
    match e
    case CallTryPush(item) => s.(producer := PushBegin(item))
    case PushLoadBegin =>
      s.(producer := PushEnd(s.producer.item, s.begin, s.end >= s.begin + s.capacity))
    case PushLoadEnd =>
      s.(producer := if s.end >= s.producer.begin + s.capacity then Quiet else PushStore(s.producer.item, s.end))
    case StoreItem => DoStoreItem(s)
    case Publish => DoPublish(s, [s.producer.item])
    case CallPushMany(items) => s.(producer := ManyEnd(items))
    case ManyLoadEnd => s.(producer := ManyCheck(s.producer.items, s.end))
    case CheckRoom => s.(producer := DoCheckRoom(s))
    case StoreNext => DoStoreNext(s)
    case PublishMany => DoPublish(s, s.producer.items)
    case CallTryPop(c) => Set(s, c, PopBegin)
    case PopLoadBegin(c) => Set(s, c, PopEnd(s.begin))
    case PopLoadEnd(c) =>
      Set(s, c, if s.end == s.consumers[c].begin then Idle else PopRead(s.consumers[c].begin))
    case PopLoadItem(c) =>
      Set(s, c, PopAdvance(s.consumers[c].begin, s.slots[s.consumers[c].begin % s.capacity]))
    case PopExchange(c, spurious) => DoPopExchange(s, c, spurious)
    case CallGrab(c, room) => Set(s, c, GrabBegin(room))
    case GrabLoadBegin(c) => Set(s, c, GrabEnd(s.consumers[c].room, s.begin))
    case GrabLoadEnd(c) => DoGrabLoadEnd(s, c)
    case GrabLoadItem(c) => DoGrabLoadItem(s, c)
    case GrabExchange(c) => DoGrabExchange(s, c)
    case CallLowSize(c) => Set(s, c, SizeEnd)
    case SizeLoadEnd(c) => Set(s, c, SizeBegin(s.end))
    case SizeLoadBegin(c) => Set(s, c, Idle)
  }

  ghost predicate Step(s: State, e: Event, s': State) {
    Enabled(s, e) && s' == Perform(s, e)
  }

  // ----- invariants

  /** The live window holds exactly the published and not yet taken items. */
  ghost predicate WindowInv(s: State) {
    && s.capacity == |s.slots| > 0
    && s.begin <= s.end <= s.begin + s.capacity
    && |s.pushed| == s.end
    && s.taken == s.pushed[..s.begin]
    && forall i :: s.begin <= i < s.end ==> s.slots[i % s.capacity] == s.pushed[i]
  }

  ghost predicate ProducerInv(s: State) {
    match s.producer
    case PushEnd(item, begin, full) =>
      begin <= s.begin && s.end <= begin + s.capacity && (full <==> s.end == begin + s.capacity)
    case PushStore(item, end) => end == s.end < s.begin + s.capacity
    case PushPublish(item, end) =>
      end == s.end < s.begin + s.capacity && s.capacity == |s.slots| > 0 && s.slots[end % s.capacity] == item
    case ManyCheck(items, end) => end == s.end
    case ManyStore(items, end, stored) =>
      && end == s.end && s.end + |items| <= s.begin + s.capacity && stored <= |items|
      && s.capacity == |s.slots| > 0
      && forall j :: 0 <= j < stored ==> s.slots[(end + j) % s.capacity] == items[j]
    case _ => true
  }

  /** A consumer whose begin is still current has read the oldest items; a stale one is doomed to retry. */
  ghost predicate ConsumerOk(s: State, pc: Consumer) {
    match pc
    case PopEnd(begin) => begin <= s.begin
    case PopRead(begin) => begin <= s.begin && begin < s.end
    case PopAdvance(begin, item) =>
      begin <= s.begin && begin < s.end <= |s.pushed| && (begin == s.begin ==> item == s.pushed[begin])
    case GrabEnd(room, begin) => begin <= s.begin
    case GrabRead(room, begin, limit, buffer) =>
      && begin <= s.begin && begin + limit <= s.end <= |s.pushed| && |buffer| <= limit <= room && (limit == 0 ==> room == 0)
      && (begin == s.begin ==> buffer == s.pushed[begin..begin + |buffer|])
    case SizeBegin(end) => end <= s.end
    case _ => true
  }

  ghost predicate Inv(s: State) {
    && WindowInv(s)
    && ProducerInv(s)
    && forall c :: c in s.consumers ==> ConsumerOk(s, s.consumers[c])
  }

  // ----- slots

  /** Indices closer together than the capacity use different slots. */
  lemma DistinctSlots(a: nat, b: nat, capacity: nat)
    requires a < b < a + capacity
    ensures a % capacity != b % capacity
  {
    var qa, qb := a / capacity, b / capacity;
    assert a == capacity * qa + a % capacity && b == capacity * qb + b % capacity;
    if a % capacity == b % capacity {
      assert b - a == capacity * (qb - qa);
      MulBounds(capacity, qb - qa);
    }
  }

  lemma MulBounds(c: int, k: int)
    requires c > 0
    ensures k <= 0 ==> c * k <= 0
    ensures k >= 1 ==> c * k >= c
  {
  }

  /** Storing outside the live window does not disturb it. */
  lemma StoreOutside(s: State, at: nat, item: Item)
    requires WindowInv(s) && s.end <= at < s.begin + s.capacity
    ensures WindowInv(s.(slots := s.slots[at % s.capacity := item]))
  {
    var slots := s.slots[at % s.capacity := item];
    forall i | s.begin <= i < s.end ensures slots[i % s.capacity] == s.pushed[i] {
      DistinctSlots(i, at, s.capacity);
    }
  }

  // ----- every step keeps the invariant

  lemma ConsumersFrame(s: State, s': State)
    requires forall c :: c in s.consumers ==> ConsumerOk(s, s.consumers[c])
    requires s'.consumers == s.consumers && s'.begin == s.begin
    requires s.end <= s'.end && s.pushed <= s'.pushed && s'.end == |s'.pushed|
    ensures forall c :: c in s'.consumers ==> ConsumerOk(s', s'.consumers[c])
  {
  }

  lemma SetKeeps(s: State, c: Id, pc: Consumer)
    requires Inv(s) && ConsumerOk(s, pc)
    ensures Inv(Set(s, c, pc))
  {
    var s' := Set(s, c, pc);
    forall d | d in s'.consumers ensures ConsumerOk(s', s'.consumers[d]) {
      assert d != c ==> ConsumerOk(s, s.consumers[d]);
      assert ConsumerOk(s', s'.consumers[d]) == ConsumerOk(s, s'.consumers[d]);
    }
  }

  lemma ProducerMoves(s: State, p: Producer)
    requires Inv(s) && ProducerInv(s.(producer := p))
    ensures Inv(s.(producer := p))
  {
    ConsumersFrame(s, s.(producer := p));
  }

  lemma StoreItemKeeps(s: State)
    requires Inv(s) && Enabled(s, StoreItem)
    ensures Inv(DoStoreItem(s))
  {
    StoreOutside(s, s.producer.end, s.producer.item);
    ConsumersFrame(s, DoStoreItem(s));
  }

  lemma StoreNextKeeps(s: State)
    requires Inv(s) && Enabled(s, StoreNext)
    ensures Inv(DoStoreNext(s))
  {
    var p := s.producer;
    var s' := DoStoreNext(s);
    StoreOutside(s, p.end + p.stored, p.items[p.stored]);
    forall j | 0 <= j < p.stored + 1 ensures s'.slots[(p.end + j) % s.capacity] == p.items[j] {
      if j < p.stored {
        DistinctSlots(p.end + j, p.end + p.stored, s.capacity);
      }
    }
    ConsumersFrame(s, s');
  }

  lemma PublishKeeps(s: State, items: seq<Item>)
    requires Inv(s) && s.end + |items| <= s.begin + s.capacity
    requires forall j :: 0 <= j < |items| ==> s.slots[(s.end + j) % s.capacity] == items[j]
    ensures Inv(DoPublish(s, items))
  {
    var s' := DoPublish(s, items);
    forall i | s'.begin <= i < s'.end ensures s'.slots[i % s.capacity] == s'.pushed[i] {
      if i >= s.end {
        assert s.slots[(s.end + (i - s.end)) % s.capacity] == items[i - s.end];
      }
    }
    assert s'.pushed[..s.begin] == s.pushed[..s.begin];
    ConsumersFrame(s, s');
  }

  /** Winning the compare-exchange takes exactly the oldest items, and dooms everybody with the old begin. */
  lemma AdvanceKeeps(s: State, c: Id, items: seq<Item>)
    requires Inv(s) && s.begin + |items| <= s.end && items == s.pushed[s.begin..s.begin + |items|]
    ensures Inv(DoAdvance(s, c, items))
  {
    var s' := DoAdvance(s, c, items);
    assert s.pushed[..s.begin] + items == s.pushed[..s.begin + |items|];
    if items == [] {
      assert s'.begin == s.begin;
    }
    forall d | d in s'.consumers ensures ConsumerOk(s', s'.consumers[d]) {
      assert d != c ==> ConsumerOk(s, s.consumers[d]);
    }
  }

  ghost predicate PopEvent(e: Event) {
    e.CallTryPop? || e.PopLoadBegin? || e.PopLoadEnd? || e.PopLoadItem? || e.PopExchange?
  }

  ghost predicate GrabEvent(e: Event) {
    || e.CallGrab? || e.GrabLoadBegin? || e.GrabLoadEnd? || e.GrabLoadItem? || e.GrabExchange?
    || e.CallLowSize? || e.SizeLoadEnd? || e.SizeLoadBegin?
  }

  lemma ProducerStepKeeps(s: State, e: Event)
    requires Inv(s) && Enabled(s, e)
    requires !PopEvent(e) && !GrabEvent(e)
    ensures Inv(Perform(s, e))
  {
    if e.StoreItem? {
      StoreItemKeeps(s);
    } else if e.StoreNext? {
      StoreNextKeeps(s);
    } else if e.Publish? {
      PublishKeeps(s, [s.producer.item]);
    } else if e.PublishMany? {
      PublishKeeps(s, s.producer.items);
    } else {
      ProducerMoves(s, Perform(s, e).producer);
    }
  }

  /** What a pop that wins its exchange takes away. */
  lemma PopWon(s: State, pc: Consumer)
    requires ConsumerOk(s, pc) && pc.PopAdvance? && pc.begin == s.begin
    ensures s.begin < |s.pushed| && [pc.item] == s.pushed[s.begin..s.begin + 1]
  {
  }

  lemma PopStepKeeps(s: State, e: Event)
    requires Inv(s) && Enabled(s, e)
    requires PopEvent(e)
    ensures Inv(Perform(s, e))
  {
    var pc := s.consumers[e.c];
    assert ConsumerOk(s, pc);
    if e.PopExchange? && pc.begin == s.begin && !e.spurious {
      PopWon(s, pc);
      AdvanceKeeps(s, e.c, [pc.item]);
    } else {
      SetKeeps(s, e.c, Perform(s, e).consumers[e.c]);
    }
  }

  lemma GrabItemOk(s: State, pc: Consumer)
    requires WindowInv(s) && ConsumerOk(s, pc) && pc.GrabRead? && |pc.buffer| < pc.limit
    ensures ConsumerOk(s, pc.(buffer := pc.buffer + [s.slots[(pc.begin + |pc.buffer|) % s.capacity]]))
  {
    var n := |pc.buffer|;
    if pc.begin == s.begin {
      assert s.pushed[pc.begin..pc.begin + n + 1] == s.pushed[pc.begin..pc.begin + n] + [s.pushed[pc.begin + n]];
    }
  }

  lemma GrabStepKeeps(s: State, e: Event)
    requires Inv(s) && Enabled(s, e)
    requires GrabEvent(e)
    ensures Inv(Perform(s, e))
  {
    var pc := s.consumers[e.c];
    assert ConsumerOk(s, pc);
    if e.GrabExchange? && pc.begin == s.begin {
      AdvanceKeeps(s, e.c, pc.buffer);
    } else {
      if e.GrabLoadItem? {
        GrabItemOk(s, pc);
      }
      SetKeeps(s, e.c, Perform(s, e).consumers[e.c]);
    }
  }

  lemma StepKeepsInv(s: State, e: Event, s': State)
    requires Inv(s) && Step(s, e, s')
    ensures Inv(s')
  {
    if PopEvent(e) {
      PopStepKeeps(s, e);
    } else if GrabEvent(e) {
      GrabStepKeeps(s, e);
    } else {
      ProducerStepKeeps(s, e);
    }
  }

  lemma RunsKeepInv(states: seq<State>, events: seq<Event>)
    requires Runs.IsRun(Init, Step, states, events)
    ensures forall i :: 0 <= i < |states| ==> Inv(states[i])
  {
    forall s | Init(s) ensures Inv(s) { }
    forall s, e, s' | Inv(s) && Step(s, e, s') ensures Inv(s') { StepKeepsInv(s, e, s'); }
    Runs.Invariance(Init, Step, Inv, states, events);
  }

  // ----- what the queue promises

  /** The abstract queue. */
  ghost predicate Windowed(s: State) {
    s.begin <= s.end == |s.pushed|
  }

  ghost function Contents(s: State): seq<Item>
    requires Windowed(s)
  {
    s.pushed[s.begin..s.end]
  }

  datatype Effect = Nothing | Enqueue(items: seq<Item>) | Dequeue(items: seq<Item>)

  /** What an event does to the abstract queue: a push takes effect when the new end is published, a pop or grab
      when its compare-exchange wins, and no other action of any thread is visible. */
  ghost function EffectOf(s: State, e: Event): Effect
    requires Enabled(s, e)
  {
    match e
    case Publish => Enqueue([s.producer.item])
    case PublishMany => Enqueue(s.producer.items)
    case PopExchange(c, spurious) =>
      if s.consumers[c].begin == s.begin && !spurious then Dequeue([s.consumers[c].item]) else Nothing
    case GrabExchange(c) =>
      if s.consumers[c].begin == s.begin then Dequeue(s.consumers[c].buffer) else Nothing
    case _ => Nothing
  }

  /** One step of a bounded first-in first-out queue. */
  ghost predicate QueueStep(q: seq<Item>, f: Effect, q': seq<Item>, capacity: nat) {
    match f
    case Nothing => q' == q
    case Enqueue(items) => q' == q + items && |q'| <= capacity
    case Dequeue(items) => q == items + q'
  }

  /** Linearizability: every step of every interleaving is one step of the bounded FIFO queue. */
  lemma RefinesQueue(s: State, e: Event, s': State)
    requires Inv(s) && Step(s, e, s')
    ensures Inv(s') && QueueStep(Contents(s), EffectOf(s, e), Contents(s'), s.capacity) && s'.capacity == s.capacity
  {
    StepKeepsInv(s, e, s');
    if PopEvent(e) || GrabEvent(e) {
      assert ConsumerOk(s, s.consumers[e.c]);
      ConsumerRefines(s, e);
    } else {
      ProducerRefines(s, e);
    }
  }

  lemma ConsumerRefines(s: State, e: Event)
    requires Inv(s) && Enabled(s, e) && (PopEvent(e) || GrabEvent(e)) && Inv(Perform(s, e))
    ensures QueueStep(Contents(s), EffectOf(s, e), Contents(Perform(s, e)), s.capacity)
    ensures Perform(s, e).capacity == s.capacity
  {
    assert ConsumerOk(s, s.consumers[e.c]);
    var q, q' := Contents(s), Contents(Perform(s, e));
    if EffectOf(s, e).Dequeue? {
      var items := EffectOf(s, e).items;
      assert items == s.pushed[s.begin..s.begin + |items|];
      assert q == items + q';
    }
  }

  lemma WindowGrows(pushed: seq<Item>, items: seq<Item>, begin: nat)
    requires begin <= |pushed|
    ensures (pushed + items)[begin..|pushed| + |items|] == pushed[begin..] + items
  {
  }

  lemma PublishShape(s: State, e: Event)
    requires Enabled(s, e) && (e.Publish? || e.PublishMany?)
    ensures var s' := Perform(s, e); var items := if e.Publish? then [s.producer.item] else s.producer.items;
            && EffectOf(s, e) == Enqueue(items) && s'.pushed == s.pushed + items
            && s'.begin == s.begin && s'.capacity == s.capacity
  {
  }

  lemma PublishRefines(s: State, e: Event)
    requires Windowed(s) && Enabled(s, e) && (e.Publish? || e.PublishMany?) && Windowed(Perform(s, e))
    requires Perform(s, e).end <= s.begin + s.capacity
    ensures QueueStep(Contents(s), EffectOf(s, e), Contents(Perform(s, e)), s.capacity)
    ensures Perform(s, e).capacity == s.capacity
  {
    PublishShape(s, e);
    WindowGrows(s.pushed, EffectOf(s, e).items, s.begin);
  }

  /** Everything else leaves what has been published and what has been won as it is. */
  lemma QuietStep(s: State, e: Event)
    requires Enabled(s, e) && !PopEvent(e) && !GrabEvent(e) && !e.Publish? && !e.PublishMany?
    ensures var s' := Perform(s, e);
            s'.pushed == s.pushed && s'.begin == s.begin && s'.end == s.end && s'.capacity == s.capacity
  {
  }

  lemma ProducerRefines(s: State, e: Event)
    requires Inv(s) && Enabled(s, e) && !PopEvent(e) && !GrabEvent(e) && Inv(Perform(s, e))
    ensures QueueStep(Contents(s), EffectOf(s, e), Contents(Perform(s, e)), s.capacity)
    ensures Perform(s, e).capacity == s.capacity
  {
    if e.Publish? || e.PublishMany? {
      PublishShape(s, e);
      PublishRefines(s, e);
    } else {
      QuietStep(s, e);
    }
  }

  /** In every state of every run the items won so far are exactly the first begin_ items published, in order,
      and at most capacity items are in between. */
  lemma FirstInFirstOut(states: seq<State>, events: seq<Event>, i: nat)
    requires Runs.IsRun(Init, Step, states, events) && i < |states|
    ensures var s := states[i];
            && |s.pushed| == s.end && s.begin <= s.end <= s.begin + s.capacity
            && s.taken == s.pushed[..s.begin]
  {
    RunsKeepInv(states, events);
  }

  /** When TryPop or Grab gives up, the queue is empty at that very load of end_. */
  lemma GivingUpSawEmpty(s: State, c: Id)
    requires Inv(s) && c in s.consumers
    ensures s.consumers[c].PopEnd? && Perform(s, PopLoadEnd(c)).consumers[c] == Idle ==> Contents(s) == []
    ensures s.consumers[c].GrabEnd? && Perform(s, GrabLoadEnd(c)).consumers[c] == Idle ==> Contents(s) == []
  {
    assert ConsumerOk(s, s.consumers[c]);
  }

  /** What LowSize reports when it loads begin_. */
  ghost function SizeSeen(s: State, c: Id): nat
    requires c in s.consumers && s.consumers[c].SizeBegin?
  {
    if s.begin >= s.consumers[c].end then 0 else s.consumers[c].end - s.begin
  }

  /** LowSize, loading end_ before begin_, never reports more than is really there when it returns. */
  lemma LowSizeIsLow(s: State, c: Id)
    requires Inv(s) && c in s.consumers && s.consumers[c].SizeBegin?
    ensures SizeSeen(s, c) <= |Contents(s)| <= s.capacity
  {
    assert ConsumerOk(s, s.consumers[c]);
  }

  /** On every run: a TryPop or Grab that comes back empty-handed saw an empty queue when it loaded end_. */
  lemma EmptyHandedSawEmpty(states: seq<State>, events: seq<Event>, i: nat, c: Id)
    requires Runs.IsRun(Init, Step, states, events) && i < |events|
    requires events[i] == PopLoadEnd(c) || events[i] == GrabLoadEnd(c)
    requires c in states[i + 1].consumers && states[i + 1].consumers[c] == Idle
    ensures Windowed(states[i]) && Contents(states[i]) == []
  {
    RunsKeepInv(states, events);
    assert Step(states[i], events[i], states[i + 1]);
    GivingUpSawEmpty(states[i], c);
  }

  /** On every run: what LowSize computes from its two loads is at most the number of items there at the second. */
  lemma LowSizeNeverTooHigh(states: seq<State>, events: seq<Event>, i: nat, c: Id)
    requires Runs.IsRun(Init, Step, states, events) && i < |events| && events[i] == SizeLoadBegin(c)
    ensures var s := states[i];
            && Windowed(s) && c in s.consumers && s.consumers[c].SizeBegin?
            && SizeSeen(s, c) <= |Contents(s)| <= s.capacity
  {
    RunsKeepInv(states, events);
    assert Step(states[i], events[i], states[i + 1]);
    LowSizeIsLow(states[i], c);
  }

  /** The assertion of PushMany fails exactly when, at its load of begin_, the items do not fit. */
  lemma RoomCheckExact(states: seq<State>, events: seq<Event>, i: nat)
    requires Runs.IsRun(Init, Step, states, events) && i < |events| && events[i] == CheckRoom
    ensures states[i].producer.ManyCheck?
    ensures var items := states[i].producer.items;
            if states[i].end + |items| <= states[i].begin + states[i].capacity
            then states[i + 1].producer == ManyStore(items, states[i].end, 0)
            else states[i + 1].producer == Aborted
  {
    RunsKeepInv(states, events);
    assert Step(states[i], events[i], states[i + 1]);
  }

  /** What a PushMany under way still has room for, if it had it when it was called. */
  ghost predicate RoomKept(s: State) {
    s.producer.ManyEnd? || s.producer.ManyCheck? ==> HasRoom(s, s.end, s.producer.items)
  }

  lemma {:induction false} RoomKeptAlong(states: seq<State>, events: seq<Event>, j: nat, i: nat)
    requires Runs.IsRun(Init, Step, states, events) && j <= i < |states| && RoomKept(states[j])
    requires forall k :: j <= k < i ==> !events[k].CallPushMany?
    ensures RoomKept(states[i])
    decreases i - j
  {
    if j < i {
      RunsKeepInv(states, events);
      assert Step(states[j], events[j], states[j + 1]);
      RefinesQueue(states[j], events[j], states[j + 1]);
      CapacityFixed(states, events, j, j + 1);
      RoomKeptAlong(states, events, j + 1, i);
    }
  }

  /** It passes in every interleaving if there was room when PushMany was called. */
  lemma RoomCheckPasses(states: seq<State>, events: seq<Event>, j: nat, i: nat)
    requires Runs.IsRun(Init, Step, states, events) && j < i < |events|
    requires events[j].CallPushMany? && HasRoom(states[j], states[j].end, events[j].items)
    requires events[i] == CheckRoom && forall k :: j < k < i ==> !events[k].CallPushMany?
    ensures states[i + 1].producer.ManyStore?
  {
    RunsKeepInv(states, events);
    assert Step(states[j], events[j], states[j + 1]) && Step(states[i], events[i], states[i + 1]);
    RoomKeptAlong(states, events, j + 1, i);
    assert ProducerInv(states[i]);
  }

  ghost predicate ProducerHas(s: State, p: Producer) {
    s.producer == p
  }

  lemma {:induction false} FindPushLoad(states: seq<State>, events: seq<Event>, i: nat) returns (j: nat)
    requires Runs.IsRun(Init, Step, states, events) && i < |states| && states[i].producer.PushEnd?
    ensures j < i && events[j] == PushLoadBegin
    ensures forall k :: j < k <= i ==> ProducerHas(states[k], states[i].producer)
  {
    assert i > 0;
    assert Step(states[i - 1], events[i - 1], states[i]);
    if events[i - 1] == PushLoadBegin {
      j := i - 1;
    } else {
      j := FindPushLoad(states, events, i - 1);
    }
  }

  /** A TryPush that returns false saw a truly full queue when, in this same call, it loaded begin_. */
  lemma RefusedPushSawFull(states: seq<State>, events: seq<Event>, i: nat) returns (j: nat)
    requires Runs.IsRun(Init, Step, states, events) && i < |events|
    requires events[i] == PushLoadEnd && states[i + 1].producer == Quiet
    ensures j < i && events[j] == PushLoadBegin && Inv(states[j]) && |Contents(states[j])| == states[j].capacity
    ensures forall k :: j < k <= i ==> ProducerHas(states[k], states[i].producer)
  {
    RunsKeepInv(states, events);
    assert Step(states[i], events[i], states[i + 1]);
    j := FindPushLoad(states, events, i);
    assert Step(states[j], events[j], states[j + 1]);
    assert ProducerHas(states[j + 1], states[i].producer);
    assert Inv(states[i]) && ProducerInv(states[i]);
    CapacityFixed(states, events, j, i);
  }

  lemma {:induction false} CapacityFixed(states: seq<State>, events: seq<Event>, i: nat, j: nat)
    requires Runs.IsRun(Init, Step, states, events) && i <= j < |states|
    ensures states[i].capacity == states[j].capacity && states[i].begin <= states[j].begin
    decreases j - i
  {
    if i < j {
      assert Step(states[i], events[i], states[i + 1]);
      CapacityFixed(states, events, i + 1, j);
    }
  }

  /** The begin index a consumer is working with. */
  ghost predicate WorksFrom(s: State, c: Id, begin: nat) {
    c in s.consumers &&
    match s.consumers[c]
    case PopEnd(b) => b == begin
    case PopRead(b) => b == begin
    case PopAdvance(b, _) => b == begin
    case GrabEnd(_, b) => b == begin
    case GrabRead(_, b, _, _) => b == begin
    case _ => true
  }

  ghost predicate LoadsBegin(e: Event, c: Id) {
    e == PopLoadBegin(c) || e == GrabLoadBegin(c)
  }

  lemma WorksFromKept(s: State, e: Event, c: Id, begin: nat)
    requires WorksFrom(s, c, begin) && Enabled(s, e) && !LoadsBegin(e, c)
    ensures WorksFrom(Perform(s, e), c, begin)
  {
  }

  lemma {:induction false} WorksFromAlong(states: seq<State>, events: seq<Event>, c: Id, begin: nat, i: nat, j: nat)
    requires Runs.IsRun(Init, Step, states, events) && i <= j < |states| && WorksFrom(states[i], c, begin)
    requires forall k :: i <= k < j ==> !LoadsBegin(events[k], c)
    ensures WorksFrom(states[j], c, begin)
    decreases j - i
  {
    if i < j {
      assert Step(states[i], events[i], states[i + 1]);
      WorksFromKept(states[i], events[i], c, begin);
      WorksFromAlong(states, events, c, begin, i + 1, j);
    }
  }

  /** No stale reader wins: if the compare-exchange at event j succeeds after this consumer loaded begin_ at
      event i, nobody moved begin_ in between. */
  lemma NoStaleWinner(states: seq<State>, events: seq<Event>, c: Id, i: nat, j: nat, k: nat)
    requires Runs.IsRun(Init, Step, states, events) && i < k <= j < |events|
    requires LoadsBegin(events[i], c) && forall m :: i < m < j ==> !LoadsBegin(events[m], c)
    requires events[j].PopExchange? || events[j].GrabExchange?
    requires Enabled(states[j], events[j]) && events[j].c == c && EffectOf(states[j], events[j]).Dequeue?
    ensures states[k].begin == states[i].begin == states[j].begin
  {
    assert Step(states[i], events[i], states[i + 1]);
    WorksFromAlong(states, events, c, states[i].begin, i + 1, j);
    CapacityFixed(states, events, i, k);
    CapacityFixed(states, events, k, j);
  }
}
