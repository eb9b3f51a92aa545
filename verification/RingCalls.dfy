/** What complete calls on the ring do: TryPush, PushMany, TryPop, Grab and LowSize from the arguments they were called
    with and the indices they loaded to what they publish, take or report, with all other threads running in between. */
module RingCalls {
  import opened RingBuffer
  import Histories
  import Runs

  // ----- TryPush and PushMany

  ghost predicate Pushing(s: State, item: Item) {
    s.producer.PushBegin? || s.producer.PushEnd? || s.producer.PushStore? || s.producer.PushPublish? ==> s.producer.item == item
  }

  lemma PushingKept(s: State, e: Event, item: Item)
    requires Pushing(s, item) && Enabled(s, e) && !e.CallTryPush?
    ensures Pushing(Perform(s, e), item)
  {
  }

  lemma PublishAppends(s: State, e: Event)
    requires Inv(s) && Enabled(s, e) && (e.Publish? || e.PublishMany?)
    ensures var s' := Perform(s, e); var items := if e.Publish? then [s.producer.item] else s.producer.items;
            Inv(s') && s'.pushed == s.pushed + items && Contents(s') == Contents(s) + items && s'.producer == Quiet
  {
    RefinesQueue(s, e, Perform(s, e));
    PublishShape(s, e);
  }

  /** A TryPush that succeeds appends the item it was called with. */
  lemma TryPushAppends(states: seq<State>, events: seq<Event>, i: nat, j: nat, item: Item)
    requires Runs.IsRun(Init, Step, states, events) && i < j < |events|
    requires events[i] == CallTryPush(item) && events[j] == Publish
    requires forall k :: i < k < j ==> !events[k].CallTryPush?
    ensures Windowed(states[j]) && Windowed(states[j + 1]) && Contents(states[j + 1]) == Contents(states[j]) + [item]
    ensures states[j + 1].pushed == states[j].pushed + [item] && states[j + 1].producer == Quiet
  {
    RunsKeepInv(states, events);
    assert Step(states[i], events[i], states[i + 1]) && Step(states[j], events[j], states[j + 1]);
    forall s, e, s' | Pushing(s, item) && Step(s, e, s') && !e.CallTryPush? ensures Pushing(s', item) { PushingKept(s, e, item); }
    Histories.Lasts(Step, Inv, s => Pushing(s, item), (e: Event) => e.CallTryPush?, states, events, i + 1, j);
    PublishAppends(states[j], events[j]);
  }

  ghost predicate SawFull(s: State, full: bool) {
    s.producer.PushEnd? ==> s.producer.full == full
  }

  lemma SawFullKept(s: State, e: Event, full: bool)
    requires SawFull(s, full) && Enabled(s, e) && e != PushLoadBegin
    ensures SawFull(Perform(s, e), full)
  {
  }

  /** TryPush returns false exactly when the queue was full when this call loaded begin_. */
  lemma TryPushRefusedIffFull(states: seq<State>, events: seq<Event>, i: nat, j: nat)
    requires Runs.IsRun(Init, Step, states, events) && i < j < |events|
    requires events[i] == PushLoadBegin && events[j] == PushLoadEnd
    requires forall k :: i < k < j ==> events[k] != PushLoadBegin
    ensures Windowed(states[i]) && (states[j + 1].producer == Quiet <==> |Contents(states[i])| == states[i].capacity)
    ensures states[j + 1].producer != Quiet ==> states[j + 1].producer.PushStore?
  {
    RunsKeepInv(states, events);
    assert Step(states[i], events[i], states[i + 1]) && Step(states[j], events[j], states[j + 1]);
    var full := states[i].end >= states[i].begin + states[i].capacity;
    forall s, e, s' | SawFull(s, full) && Step(s, e, s') && e != PushLoadBegin ensures SawFull(s', full) { SawFullKept(s, e, full); }
    Histories.Lasts(Step, Inv, s => SawFull(s, full), e => e == PushLoadBegin, states, events, i + 1, j);
    assert Inv(states[i]) && Inv(states[j]);
  }

  ghost predicate PushingMany(s: State, items: seq<Item>) {
    s.producer.ManyEnd? || s.producer.ManyCheck? || s.producer.ManyStore? ==> s.producer.items == items
  }

  lemma PushingManyKept(s: State, e: Event, items: seq<Item>)
    requires PushingMany(s, items) && Enabled(s, e) && !e.CallPushMany?
    ensures PushingMany(Perform(s, e), items)
  {
  }

  /** A PushMany that passes its assertion appends exactly the items it was called with, in order, all at once. */
  lemma PushManyAppends(states: seq<State>, events: seq<Event>, i: nat, j: nat, items: seq<Item>)
    requires Runs.IsRun(Init, Step, states, events) && i < j < |events|
    requires events[i] == CallPushMany(items) && events[j] == PublishMany
    requires forall k :: i < k < j ==> !events[k].CallPushMany?
    ensures Windowed(states[j]) && Windowed(states[j + 1]) && Contents(states[j + 1]) == Contents(states[j]) + items
    ensures states[j + 1].pushed == states[j].pushed + items && states[j + 1].producer == Quiet
  {
    RunsKeepInv(states, events);
    assert Step(states[i], events[i], states[i + 1]) && Step(states[j], events[j], states[j + 1]);
    forall s, e, s' | PushingMany(s, items) && Step(s, e, s') && !e.CallPushMany? ensures PushingMany(s', items) {
      PushingManyKept(s, e, items);
    }
    Histories.Lasts(Step, Inv, s => PushingMany(s, items), (e: Event) => e.CallPushMany?, states, events, i + 1, j);
    PublishAppends(states[j], events[j]);
  }

  // ----- TryPop

  /** Nothing has been taken, and the consumer starts over. */
  ghost predicate Retries(s: State, s': State, c: Id, again: Consumer) {
    s'.taken == s.taken && s'.begin == s.begin && Is(s', c, again)
  }

  /** The oldest items have been taken, and the call is over. */
  ghost predicate Takes(s: State, s': State, c: Id, count: nat) {
    && Windowed(s) && Windowed(s') && count <= |Contents(s)|
    && s'.taken == s.taken + Contents(s)[..count] && Contents(s') == Contents(s)[count..] && Is(s', c, Idle)
  }

  lemma AdvanceTakes(s: State, c: Id, items: seq<Item>)
    requires Inv(s) && s.begin + |items| <= s.end && items == s.pushed[s.begin..s.begin + |items|]
    ensures Takes(s, DoAdvance(s, c, items), c, |items|)
  {
    assert Contents(s)[..|items|] == items;
    assert Contents(s)[|items|..] == s.pushed[s.begin + |items|..s.end];
  }

  /** The compare-exchange of TryPop, with begin_ loaded at event i: it takes the oldest item exactly when begin_ has
      not moved and it does not fail for no reason; otherwise the loop goes round again. */
  lemma TryPopTakesOldest(states: seq<State>, events: seq<Event>, i: nat, j: nat, c: Id, spurious: bool)
    requires Runs.IsRun(Init, Step, states, events) && i < j < |events|
    requires events[i] == PopLoadBegin(c) && events[j] == PopExchange(c, spurious)
    requires forall k :: i < k < j ==> !LoadsBegin(events[k], c)
    ensures if states[j].begin == states[i].begin && !spurious then Takes(states[j], states[j + 1], c, 1)
            else Retries(states[j], states[j + 1], c, PopBegin)
  {
    RunsKeepInv(states, events);
    assert Step(states[i], events[i], states[i + 1]) && Step(states[j], events[j], states[j + 1]);
    WorksFromAlong(states, events, c, states[i].begin, i + 1, j);
    var s := states[j];
    assert ConsumerOk(s, s.consumers[c]);
    if s.begin == states[i].begin && !spurious {
      AdvanceTakes(s, c, [s.consumers[c].item]);
    }
  }

  /** TryPop gives up exactly when end_ is where this turn of the loop found begin_, and then the queue is empty. */
  lemma TryPopGivesUpIff(states: seq<State>, events: seq<Event>, i: nat, j: nat, c: Id)
    requires Runs.IsRun(Init, Step, states, events) && i < j < |events|
    requires events[i] == PopLoadBegin(c) && events[j] == PopLoadEnd(c)
    requires forall k :: i < k < j ==> !LoadsBegin(events[k], c)
    ensures c in states[j + 1].consumers && (states[j + 1].consumers[c] == Idle <==> states[j].end == states[i].begin)
    ensures states[j].end == states[i].begin ==> Windowed(states[j]) && Contents(states[j]) == []
    ensures states[j + 1].taken == states[j].taken && states[j + 1].begin == states[j].begin
  {
    RunsKeepInv(states, events);
    assert Step(states[i], events[i], states[i + 1]) && Step(states[j], events[j], states[j + 1]);
    WorksFromAlong(states, events, c, states[i].begin, i + 1, j);
    GivingUpSawEmpty(states[j], c);
  }

  /** However a TryPop comes to its end, it has taken the oldest item, or the queue was empty. */
  lemma TryPopEnds(states: seq<State>, events: seq<Event>, j: nat, c: Id)
    requires Runs.IsRun(Init, Step, states, events) && j < |events| && PopEvent(events[j]) && events[j].c == c
    requires Is(states[j + 1], c, Idle)
    ensures Takes(states[j], states[j + 1], c, 1)
            || (Windowed(states[j]) && Contents(states[j]) == [] && Takes(states[j], states[j + 1], c, 0))
  {
    RunsKeepInv(states, events);
    assert Step(states[j], events[j], states[j + 1]);
    var s := states[j];
    assert ConsumerOk(s, s.consumers[c]);
    if events[j].PopExchange? {
      AdvanceTakes(s, c, [s.consumers[c].item]);
    } else {
      GivingUpSawEmpty(s, c);
    }
  }

  // ----- Grab

  /** Only its own accesses move a consumer. */
  lemma OthersLeaveIt(s: State, e: Event, c: Id)
    requires Enabled(s, e) && c in s.consumers && !((PopEvent(e) || GrabEvent(e)) && e.c == c)
    ensures c in Perform(s, e).consumers && Perform(s, e).consumers[c] == s.consumers[c]
  {
  }

  predicate InGrab(pc: Consumer) {
    pc.GrabBegin? || pc.GrabEnd? || pc.GrabRead?
  }

  ghost predicate GrabsInto(s: State, c: Id, room: nat) {
    c in s.consumers && (InGrab(s.consumers[c]) ==> s.consumers[c].room == room)
  }

  lemma GrabsIntoKept(s: State, e: Event, c: Id, room: nat)
    requires GrabsInto(s, c, room) && Enabled(s, e) && !(e.CallGrab? && e.c == c)
    ensures GrabsInto(Perform(s, e), c, room)
  {
    if !((PopEvent(e) || GrabEvent(e)) && e.c == c) {
      OthersLeaveIt(s, e, c);
    }
  }

  ghost predicate GrabsUpTo(s: State, c: Id, limit: nat) {
    c in s.consumers && (s.consumers[c].GrabRead? ==> s.consumers[c].limit == limit)
  }

  lemma GrabsUpToKept(s: State, e: Event, c: Id, limit: nat)
    requires GrabsUpTo(s, c, limit) && Enabled(s, e) && e != GrabLoadEnd(c)
    ensures GrabsUpTo(Perform(s, e), c, limit)
  {
    if !((PopEvent(e) || GrabEvent(e)) && e.c == c) {
      OthersLeaveIt(s, e, c);
    }
  }

  ghost predicate GrabsNothing(s: State, c: Id) {
    c in s.consumers && !InGrab(s.consumers[c])
  }

  lemma GrabsNothingKept(s: State, e: Event, c: Id)
    requires GrabsNothing(s, c) && Enabled(s, e) && !(e.CallGrab? && e.c == c)
    ensures GrabsNothing(Perform(s, e), c)
  {
    if !((PopEvent(e) || GrabEvent(e)) && e.c == c) {
      OthersLeaveIt(s, e, c);
    }
  }

  ghost function Least(a: nat, b: nat): nat {
    if a <= b then a else b
  }

  lemma RoomAlong(states: seq<State>, events: seq<Event>, h: nat, j: nat, c: Id, room: nat)
    requires Runs.IsRun(Init, Step, states, events) && h < j < |states| && events[h] == CallGrab(c, room)
    requires forall k, other :: h < k < j ==> events[k] != CallGrab(c, other)
    ensures GrabsInto(states[j], c, room)
  {
    RunsKeepInv(states, events);
    assert Step(states[h], events[h], states[h + 1]);
    forall s, e, s' | GrabsInto(s, c, room) && Step(s, e, s') && !(e.CallGrab? && e.c == c) ensures GrabsInto(s', c, room) {
      GrabsIntoKept(s, e, c, room);
    }
    Histories.Lasts(Step, Inv, s => GrabsInto(s, c, room), (e: Event) => e.CallGrab? && e.c == c, states, events, h + 1, j);
  }

  /** The limit that a Grab settles on when it loads end_: what it has room for and sees, whichever is less. */
  lemma LimitLoaded(states: seq<State>, events: seq<Event>, h: nat, g: nat, i: nat, c: Id, room: nat)
    requires Runs.IsRun(Init, Step, states, events) && h < g < i < |events|
    requires events[h] == CallGrab(c, room) && events[g] == GrabLoadBegin(c) && events[i] == GrabLoadEnd(c)
    requires forall k, other :: h < k < i ==> events[k] != CallGrab(c, other)
    requires forall k :: g < k < i ==> !LoadsBegin(events[k], c)
    ensures states[i].end <= states[g].begin ==> Is(states[i + 1], c, Idle)
    ensures states[i].end > states[g].begin ==>
              Is(states[i + 1], c, GrabRead(room, states[g].begin, Least(room, states[i].end - states[g].begin), []))
  {
    assert Step(states[g], events[g], states[g + 1]) && Step(states[i], events[i], states[i + 1]);
    RoomAlong(states, events, h, i, c, room);
    WorksFromAlong(states, events, c, states[g].begin, g + 1, i);
  }

  /** Between its load of end_ and its exchange a Grab keeps its limit. */
  lemma LimitAlong(states: seq<State>, events: seq<Event>, i: nat, j: nat, c: Id, limit: nat)
    requires Runs.IsRun(Init, Step, states, events) && i <= j < |states| && GrabsUpTo(states[i], c, limit)
    requires forall k :: i <= k < j ==> events[k] != GrabLoadEnd(c)
    ensures GrabsUpTo(states[j], c, limit)
  {
    RunsKeepInv(states, events);
    forall s, e, s' | GrabsUpTo(s, c, limit) && Step(s, e, s') && e != GrabLoadEnd(c) ensures GrabsUpTo(s', c, limit) {
      GrabsUpToKept(s, e, c, limit);
    }
    Histories.Lasts(Step, Inv, s => GrabsUpTo(s, c, limit), e => e == GrabLoadEnd(c), states, events, i, j);
  }

  /** A Grab that has come back empty-handed is over. */
  lemma OverAlong(states: seq<State>, events: seq<Event>, i: nat, j: nat, c: Id)
    requires Runs.IsRun(Init, Step, states, events) && i <= j < |states| && GrabsNothing(states[i], c)
    requires forall k, other :: i <= k < j ==> events[k] != CallGrab(c, other)
    ensures GrabsNothing(states[j], c)
  {
    RunsKeepInv(states, events);
    forall s, e, s' | GrabsNothing(s, c) && Step(s, e, s') && !(e.CallGrab? && e.c == c) ensures GrabsNothing(s', c) {
      GrabsNothingKept(s, e, c);
    }
    Histories.Lasts(Step, Inv, s => GrabsNothing(s, c), (e: Event) => e.CallGrab? && e.c == c, states, events, i, j);
  }

  lemma ExchangeTakes(s: State, c: Id, room: nat, limit: nat, begin: nat)
    requires Inv(s) && Enabled(s, GrabExchange(c)) && GrabsInto(s, c, room) && GrabsUpTo(s, c, limit) && WorksFrom(s, c, begin)
    ensures if s.begin == begin then Takes(s, Perform(s, GrabExchange(c)), c, limit)
            else Retries(s, Perform(s, GrabExchange(c)), c, GrabBegin(room))
  {
    assert ConsumerOk(s, s.consumers[c]);
    if s.begin == begin {
      AdvanceTakes(s, c, s.consumers[c].buffer);
    }
  }

  /** The compare-exchange of Grab, called with that room at event h, with begin_ loaded at event g and end_ at event i:
      if begin_ has not moved it takes the oldest items, as many as there was room for and end_ promised; otherwise the
      loop goes round again with the same room. */
  lemma GrabTakesOldest(states: seq<State>, events: seq<Event>, h: nat, g: nat, i: nat, j: nat, c: Id, room: nat)
    requires Runs.IsRun(Init, Step, states, events) && h < g < i < j < |events|
    requires events[h] == CallGrab(c, room) && events[g] == GrabLoadBegin(c)
    requires events[i] == GrabLoadEnd(c) && events[j] == GrabExchange(c)
    requires forall k, other :: h < k < j ==> events[k] != CallGrab(c, other)
    requires forall k :: g < k < j ==> !LoadsBegin(events[k], c)
    requires forall k :: i < k < j ==> events[k] != GrabLoadEnd(c)
    ensures states[i].end > states[g].begin
    ensures if states[j].begin == states[g].begin then
              Takes(states[j], states[j + 1], c, Least(room, states[i].end - states[g].begin))
            else Retries(states[j], states[j + 1], c, GrabBegin(room))
  {
    RunsKeepInv(states, events);
    assert Step(states[g], events[g], states[g + 1]) && Step(states[j], events[j], states[j + 1]);
    LimitLoaded(states, events, h, g, i, c, room);
    if states[i].end <= states[g].begin {
      OverAlong(states, events, i + 1, j, c);
    }
    LimitAlong(states, events, i + 1, j, c, Least(room, states[i].end - states[g].begin));
    RoomAlong(states, events, h, j, c, room);
    WorksFromAlong(states, events, c, states[g].begin, g + 1, j);
    ExchangeTakes(states[j], c, room, Least(room, states[i].end - states[g].begin), states[g].begin);
  }

  /** However a Grab comes to its end, it has taken the oldest items, none only if there was no room or none to take. */
  lemma GrabEnds(states: seq<State>, events: seq<Event>, h: nat, j: nat, c: Id, room: nat) returns (count: nat)
    requires Runs.IsRun(Init, Step, states, events) && h < j < |events| && events[h] == CallGrab(c, room)
    requires forall k, other :: h < k < j ==> events[k] != CallGrab(c, other)
    requires (events[j] == GrabLoadEnd(c) || events[j] == GrabExchange(c)) && Is(states[j + 1], c, Idle)
    ensures count <= room && Takes(states[j], states[j + 1], c, count)
    ensures count == 0 ==> room == 0 || Contents(states[j]) == []
  {
    RunsKeepInv(states, events);
    assert Step(states[j], events[j], states[j + 1]);
    RoomAlong(states, events, h, j, c, room);
    var s := states[j];
    var pc := s.consumers[c];
    assert ConsumerOk(s, pc);
    if pc.GrabRead? {
      AdvanceTakes(s, c, pc.buffer);
      count := |pc.buffer|;
    } else {
      GivingUpSawEmpty(s, c);
      count := 0;
    }
  }

  // ----- LowSize

  ghost predicate LoadedEnd(s: State, c: Id, end: nat) {
    c in s.consumers && (s.consumers[c].SizeBegin? ==> s.consumers[c].end == end)
  }

  lemma LoadedEndKept(s: State, e: Event, c: Id, end: nat)
    requires LoadedEnd(s, c, end) && Enabled(s, e) && e != SizeLoadEnd(c)
    ensures LoadedEnd(Perform(s, e), c, end)
  {
    if !((PopEvent(e) || GrabEvent(e)) && e.c == c) {
      OthersLeaveIt(s, e, c);
    }
  }

  /** LowSize, with end_ loaded at event i and begin_ at event j: it reports exactly their difference, or zero. */
  lemma LowSizeIsDifference(states: seq<State>, events: seq<Event>, i: nat, j: nat, c: Id)
    requires Runs.IsRun(Init, Step, states, events) && i < j < |events|
    requires events[i] == SizeLoadEnd(c) && events[j] == SizeLoadBegin(c)
    requires forall k :: i < k < j ==> events[k] != SizeLoadEnd(c)
    ensures c in states[j].consumers && states[j].consumers[c].SizeBegin?
    ensures var size := SizeSeen(states[j], c);
            size == (if states[i].end >= states[j].begin then states[i].end - states[j].begin else 0)
  {
    RunsKeepInv(states, events);
    assert Step(states[i], events[i], states[i + 1]) && Step(states[j], events[j], states[j + 1]);
    var end := states[i].end;
    forall s, e, s' | LoadedEnd(s, c, end) && Step(s, e, s') && e != SizeLoadEnd(c) ensures LoadedEnd(s', c, end) {
      LoadedEndKept(s, e, c, end);
    }
    Histories.Lasts(Step, Inv, s => LoadedEnd(s, c, end), e => e == SizeLoadEnd(c), states, events, i + 1, j);
  }

  // ----- from the call to the return

  ghost predicate PushingSince(s: State, item: Item, pushed: seq<Item>) {
    && (s.producer.PushBegin? || s.producer.PushEnd? || s.producer.PushStore? || s.producer.PushPublish?)
    && s.producer.item == item && s.pushed == pushed
  }

  lemma TryPushSteps(s: State, e: Event, item: Item, pushed: seq<Item>)
    requires PushingSince(s, item, pushed) && Enabled(s, e)
    ensures PushingSince(Perform(s, e), item, pushed) || Perform(s, e).producer.Quiet?
    ensures Perform(s, e).producer.Quiet? ==>
              if e == Publish then Perform(s, e).pushed == pushed + [item]
              else e == PushLoadEnd && Perform(s, e).pushed == pushed
  {
  }

  /** TryPush, called at event i and back in state j, has appended its item once, or nothing, and then it was its load
      of end_ that ended it. */
  lemma TryPushCall(states: seq<State>, events: seq<Event>, i: nat, j: nat, item: Item)
    requires Runs.IsRun(Init, Step, states, events) && i < |events| && events[i] == CallTryPush(item)
    requires Histories.Returns((s: State) => s.producer.Quiet?, states, i, j)
    ensures if events[j - 1] == Publish then states[j].pushed == states[i].pushed + [item]
            else events[j - 1] == PushLoadEnd && states[j].pushed == states[i].pushed
  {
    RunsKeepInv(states, events);
    assert Step(states[i], events[i], states[i + 1]);
    var pushed := states[i].pushed;
    forall s, e, s' | PushingSince(s, item, pushed) && Step(s, e, s')
      ensures PushingSince(s', item, pushed) || s'.producer.Quiet?
    {
      TryPushSteps(s, e, item, pushed);
    }
    Histories.Ends(Step, Inv, (s: State) => s.producer.Quiet?, s => PushingSince(s, item, pushed),
                   (s: State) => s.producer.Quiet?, states, events, i, j);
    assert Step(states[j - 1], events[j - 1], states[j - 1 + 1]);
    TryPushSteps(states[j - 1], events[j - 1], item, pushed);
  }

  ghost predicate PushingManySince(s: State, items: seq<Item>, pushed: seq<Item>) {
    && (s.producer.ManyEnd? || s.producer.ManyCheck? || s.producer.ManyStore?)
    && s.producer.items == items && s.pushed == pushed
  }

  predicate ManyOver(p: Producer) {
    p.Quiet? || p.Aborted?
  }

  ghost predicate PushedMany(s: State, items: seq<Item>, pushed: seq<Item>) {
    ManyOver(s.producer) && s.pushed == pushed + (if s.producer.Quiet? then items else [])
  }

  lemma PushManySteps(s: State, e: Event, items: seq<Item>, pushed: seq<Item>)
    requires PushingManySince(s, items, pushed) && Enabled(s, e)
    ensures PushingManySince(Perform(s, e), items, pushed) || PushedMany(Perform(s, e), items, pushed)
  {
  }

  /** PushMany, called at event i and back in state j, has appended all its items, or its assertion has failed. */
  lemma PushManyCall(states: seq<State>, events: seq<Event>, i: nat, j: nat, items: seq<Item>)
    requires Runs.IsRun(Init, Step, states, events) && i < |events| && events[i] == CallPushMany(items)
    requires Histories.Returns((s: State) => ManyOver(s.producer), states, i, j)
    ensures states[j].pushed == states[i].pushed + (if states[j].producer == Quiet then items else [])
  {
    RunsKeepInv(states, events);
    assert Step(states[i], events[i], states[i + 1]);
    var pushed := states[i].pushed;
    forall s, e, s' | PushingManySince(s, items, pushed) && Step(s, e, s')
      ensures PushingManySince(s', items, pushed) || PushedMany(s', items, pushed)
    {
      PushManySteps(s, e, items, pushed);
    }
    Histories.Ends(Step, Inv, (s: State) => ManyOver(s.producer), s => PushingManySince(s, items, pushed),
                   s => PushedMany(s, items, pushed), states, events, i, j);
  }

  predicate InPop(pc: Consumer) {
    pc.PopBegin? || pc.PopEnd? || pc.PopRead? || pc.PopAdvance?
  }

  predicate InSize(pc: Consumer) {
    pc.SizeEnd? || pc.SizeBegin?
  }

  /** Inside a call of this kind. */
  ghost predicate IsIn(s: State, c: Id, call: Consumer -> bool) {
    c in s.consumers && call(s.consumers[c])
  }

  lemma StaysIn(s: State, e: Event, c: Id, call: Consumer -> bool)
    requires call == InPop || call == InGrab || call == InSize
    requires IsIn(s, c, call) && Enabled(s, e)
    ensures IsIn(Perform(s, e), c, call) || Is(Perform(s, e), c, Idle)
  {
    if !((PopEvent(e) || GrabEvent(e)) && e.c == c) {
      OthersLeaveIt(s, e, c);
    }
  }

  lemma CallEnds(states: seq<State>, events: seq<Event>, i: nat, j: nat, c: Id, call: Consumer -> bool)
    requires Runs.IsRun(Init, Step, states, events) && i < |events|
    requires Histories.Returns((s: State) => Is(s, c, Idle), states, i, j)
    requires (call == InPop || call == InGrab || call == InSize) && IsIn(states[i + 1], c, call)
    ensures i + 1 < j && IsIn(states[j - 1], c, call)
    ensures (PopEvent(events[j - 1]) || GrabEvent(events[j - 1])) && events[j - 1].c == c
  {
    RunsKeepInv(states, events);
    forall s, e, s' | IsIn(s, c, call) && Step(s, e, s') ensures IsIn(s', c, call) || Is(s', c, Idle) {
      StaysIn(s, e, c, call);
    }
    Histories.Ends(Step, Inv, s => Is(s, c, Idle), s => IsIn(s, c, call), s => Is(s, c, Idle), states, events, i, j);
    assert Step(states[j - 1], events[j - 1], states[j - 1 + 1]);
    if !((PopEvent(events[j - 1]) || GrabEvent(events[j - 1])) && events[j - 1].c == c) {
      OthersLeaveIt(states[j - 1], events[j - 1], c);
    }
  }

  /** Consumer c takes nothing before the last access of its call. */
  ghost predicate TakesOnlyAtTheEnd(states: seq<State>, events: seq<Event>, i: nat, j: nat, c: Id)
    requires i < j < |states| == |events| + 1
  {
    forall k :: i <= k < j - 1 && (PopEvent(events[k]) || GrabEvent(events[k])) && events[k].c == c ==>
      states[k + 1].taken == states[k].taken
  }

  lemma TakingEndsTheCall(states: seq<State>, events: seq<Event>, i: nat, j: nat, c: Id)
    requires Runs.IsRun(Init, Step, states, events) && Histories.Returns((s: State) => Is(s, c, Idle), states, i, j)
    ensures TakesOnlyAtTheEnd(states, events, i, j, c)
  {
    forall k | i <= k < j - 1 && (PopEvent(events[k]) || GrabEvent(events[k])) && events[k].c == c
      ensures states[k + 1].taken == states[k].taken
    {
      assert Step(states[k], events[k], states[k + 1]) && !Is(states[k + 1], c, Idle);
    }
  }

  /** TryPop, called at event i and back in state j, has taken the oldest item, once, in its last access, or the queue
      was empty at that access. */
  lemma TryPopCall(states: seq<State>, events: seq<Event>, i: nat, j: nat, c: Id)
    requires Runs.IsRun(Init, Step, states, events) && i < |events| && events[i] == CallTryPop(c)
    requires Histories.Returns((s: State) => Is(s, c, Idle), states, i, j)
    ensures Takes(states[j - 1], states[j], c, 1)
            || (Windowed(states[j - 1]) && Contents(states[j - 1]) == [] && Takes(states[j - 1], states[j], c, 0))
    ensures TakesOnlyAtTheEnd(states, events, i, j, c)
  {
    assert Step(states[i], events[i], states[i + 1]);
    CallEnds(states, events, i, j, c, InPop);
    TakingEndsTheCall(states, events, i, j, c);
    assert Step(states[j - 1], events[j - 1], states[j - 1 + 1]);
    TryPopEnds(states, events, j - 1, c);
  }

  /** Grab, called at event i with that room and back in state j, has taken the oldest items, once, in its last access:
      no more than there was room for, and none only if there was no room or the queue was empty at that access. */
  lemma GrabCall(states: seq<State>, events: seq<Event>, i: nat, j: nat, c: Id, room: nat) returns (count: nat)
    requires Runs.IsRun(Init, Step, states, events) && i < |events| && events[i] == CallGrab(c, room)
    requires Histories.Returns((s: State) => Is(s, c, Idle), states, i, j)
    ensures count <= room && Takes(states[j - 1], states[j], c, count)
    ensures count == 0 ==> room == 0 || Contents(states[j - 1]) == []
    ensures TakesOnlyAtTheEnd(states, events, i, j, c)
  {
    assert Step(states[i], events[i], states[i + 1]);
    CallEnds(states, events, i, j, c, InGrab);
    TakingEndsTheCall(states, events, i, j, c);
    assert Step(states[j - 1], events[j - 1], states[j - 1 + 1]);
    forall k, other | i < k < j - 1 ensures events[k] != CallGrab(c, other) {
      assert Step(states[k], events[k], states[k + 1]) && !Is(states[k], c, Idle);
    }
    count := GrabEnds(states, events, i, j - 1, c, room);
  }

  /** LowSize, called at event i and back in state j, takes nothing and ends with its load of begin_. */
  lemma LowSizeCall(states: seq<State>, events: seq<Event>, i: nat, j: nat, c: Id)
    requires Runs.IsRun(Init, Step, states, events) && i < |events| && events[i] == CallLowSize(c)
    requires Histories.Returns((s: State) => Is(s, c, Idle), states, i, j)
    ensures events[j - 1] == SizeLoadBegin(c) && states[j].taken == states[j - 1].taken
    ensures TakesOnlyAtTheEnd(states, events, i, j, c)
  {
    assert Step(states[i], events[i], states[i + 1]);
    CallEnds(states, events, i, j, c, InSize);
    TakingEndsTheCall(states, events, i, j, c);
    assert Step(states[j - 1], events[j - 1], states[j - 1 + 1]);
  }

  // ----- nobody ever has to wait

  /** In every state of every run, a thread inside a call has a next access, and making it gets the thread on. */
  lemma NobodyWaits(states: seq<State>, events: seq<Event>, i: nat)
    requires Runs.IsRun(Init, Step, states, events) && i < |states|
    ensures var s := states[i];
            && (forall c :: c in s.consumers && s.consumers[c] != Idle ==>
                  exists e :: (PopEvent(e) || GrabEvent(e)) && e.c == c && Enabled(s, e) && Perform(s, e).consumers != s.consumers)
            && (s.producer != Quiet && s.producer != Aborted ==>
                  exists e :: !PopEvent(e) && !GrabEvent(e) && Enabled(s, e) && Perform(s, e).producer != s.producer)
  {
    RunsKeepInv(states, events);
    var s := states[i];
    forall c | c in s.consumers && s.consumers[c] != Idle
      ensures exists e :: (PopEvent(e) || GrabEvent(e)) && e.c == c && Enabled(s, e) && Perform(s, e).consumers != s.consumers
    {
      ConsumerGetsOn(s, c);
    }
    if s.producer != Quiet && s.producer != Aborted {
      ProducerGetsOn(s);
    }
  }

  lemma ConsumerGetsOn(s: State, c: Id)
    requires Inv(s) && c in s.consumers && s.consumers[c] != Idle
    ensures exists e :: (PopEvent(e) || GrabEvent(e)) && e.c == c && Enabled(s, e) && Perform(s, e).consumers != s.consumers
  {
    var e := match s.consumers[c]
      case PopBegin => PopLoadBegin(c)
      case PopEnd(_) => PopLoadEnd(c)
      case PopRead(_) => PopLoadItem(c)
      case PopAdvance(_, _) => PopExchange(c, false)
      case GrabBegin(_) => GrabLoadBegin(c)
      case GrabEnd(_, _) => GrabLoadEnd(c)
      case GrabRead(_, _, limit, buffer) => if |buffer| < limit then GrabLoadItem(c) else GrabExchange(c)
      case SizeEnd => SizeLoadEnd(c)
      case _ => SizeLoadBegin(c);
    assert Enabled(s, e);
    assert Perform(s, e).consumers[c] != s.consumers[c];
  }

  lemma ProducerGetsOn(s: State)
    requires Inv(s) && s.producer != Quiet && s.producer != Aborted
    ensures exists e :: !PopEvent(e) && !GrabEvent(e) && Enabled(s, e) && Perform(s, e).producer != s.producer
  {
    var e := match s.producer
      case PushBegin(_) => PushLoadBegin
      case PushEnd(_, _, _) => PushLoadEnd
      case PushStore(_, _) => StoreItem
      case PushPublish(_, _) => Publish
      case ManyEnd(_) => ManyLoadEnd
      case ManyCheck(_, _) => CheckRoom
      case ManyStore(items, _, stored) => if stored < |items| then StoreNext else PublishMany
      case _ => Publish;
    assert Enabled(s, e) && Perform(s, e).producer != s.producer;
  }
}
