/** The ticket lock with TryLock. Every atomic access is one event. */
module TicketLocks {
  import Histories
  import Runs

  type Id = int

  /** A thread, by its next action. */
  datatype Pc =
    | Idle
    | Waiting(ticket: nat)                 // Lock: about to load owner_ticket_
    | Holding(ticket: nat)
    | Seen(owner: nat)                     // TryLock: owner read, about to load next_free_ticket_
    | Ready(owner: nat, desired: nat)      // TryLock: about to compare-exchange next_free_ticket_

  datatype State = State(
    next: nat,
    owner: nat,
    threads: map<Id, Pc>,
    taken: seq<Id>,                        // history: who took each ticket
    grants: seq<Id>)                       // history: order of entries into the critical section

  datatype Event =
    | TakeTicket(t: Id)
    | CheckOwner(t: Id)
    | LoadOwner(t: Id)
    | LoadNext(t: Id)
    | TryExchange(t: Id)
    | Unlock(t: Id)

  ghost predicate Init(s: State) {
    && s.next == s.owner == 0 && s.taken == [] && s.grants == []
    && forall t :: t in s.threads ==> s.threads[t] == Idle
  }

  ghost predicate Enabled(s: State, e: Event) {
    && e.t in s.threads
    && match e
       case TakeTicket(t) => s.threads[t].Idle?
       case CheckOwner(t) => s.threads[t].Waiting?
       case LoadOwner(t) => s.threads[t].Idle?
       case LoadNext(t) => s.threads[t].Seen?
       case TryExchange(t) => s.threads[t].Ready?
       case Unlock(t) => s.threads[t].Holding?
  }

  ghost function Go(s: State, t: Id, pc: Pc): State {
    s.(threads := s.threads[t := pc])
  }

  ghost function Perform(s: State, e: Event): State
    requires Enabled(s, e)
  {
    match e
    case TakeTicket(t) => Go(s, t, Waiting(s.next)).(next := s.next + 1, taken := s.taken + [t])
    case CheckOwner(t) =>
      if s.threads[t].ticket == s.owner then Go(s, t, Holding(s.owner)).(grants := s.grants + [t]) else s
    case LoadOwner(t) => Go(s, t, Seen(s.owner))
    case LoadNext(t) => Go(s, t, Ready(s.threads[t].owner, s.next + 1))
    case TryExchange(t) =>
      var pc := s.threads[t];
      if s.next == pc.owner then
        Go(s, t, Holding(pc.owner)).(next := pc.desired, taken := s.taken + [t], grants := s.grants + [t])
      else Go(s, t, Idle)
    case Unlock(t) => Go(s, t, Idle).(owner := s.owner + 1)
  }

  ghost predicate Step(s: State, e: Event, s': State) {
    Enabled(s, e) && s' == Perform(s, e)
  }

  ghost predicate HasTicket(pc: Pc, k: nat) {
    (pc.Waiting? || pc.Holding?) && pc.ticket == k
  }

  /** The outstanding tickets are exactly [owner, next), each in the hands of the thread that took it. */
  ghost predicate TicketsInv(s: State) {
    && s.owner <= s.next == |s.taken|
    && (forall t :: t in s.threads && (s.threads[t].Waiting? || s.threads[t].Holding?) ==>
          s.owner <= s.threads[t].ticket < s.next && s.taken[s.threads[t].ticket] == t)
    && (forall k :: s.owner <= k < s.next ==> s.taken[k] in s.threads && HasTicket(s.threads[s.taken[k]], k))
  }

  /** The holder has the owner's ticket, and entries happened in ticket order. */
  ghost predicate GrantsInv(s: State)
    requires TicketsInv(s)
  {
    && s.owner <= |s.grants| <= s.owner + 1 && s.grants <= s.taken
    && (forall t :: t in s.threads && s.threads[t].Holding? ==> s.threads[t].ticket == s.owner && |s.grants| == s.owner + 1)
    && (|s.grants| == s.owner + 1 ==> s.threads[s.taken[s.owner]].Holding?)
  }

  /** What a TryLock in progress knows. */
  ghost predicate ReadsInv(s: State) {
    && (forall t :: t in s.threads && s.threads[t].Seen? ==> s.threads[t].owner <= s.owner)
    && (forall t :: t in s.threads && s.threads[t].Ready? ==>
          s.threads[t].owner <= s.owner && s.threads[t].owner < s.threads[t].desired <= s.next + 1)
  }

  ghost predicate Inv(s: State) {
    TicketsInv(s) && GrantsInv(s) && ReadsInv(s)
  }

  /** The sandwich: owner only grows, never passes next, and next only grows, so finding next equal to the owner
      read first means that neither moved, the lock is free, and the stored value is the next ticket. */
  lemma TryExchangeSandwich(s: State, t: Id)
    requires Inv(s) && Enabled(s, TryExchange(t))
    ensures s.next == s.threads[t].owner <==> s.next == s.owner == s.threads[t].owner
    ensures s.next == s.threads[t].owner ==>
              && (forall u :: u in s.threads ==> !s.threads[u].Waiting? && !s.threads[u].Holding?)
              && s.threads[t].desired == s.next + 1
  {
  }

  lemma TicketsStep(s: State, e: Event)
    requires Inv(s) && Enabled(s, e)
    ensures TicketsInv(Perform(s, e))
  {
    var s' := Perform(s, e);
    if e.TryExchange? {
      TryExchangeSandwich(s, e.t);
    }
    forall k | s'.owner <= k < s'.next ensures s'.taken[k] in s'.threads && HasTicket(s'.threads[s'.taken[k]], k) {
      if k < s.next {
        assert HasTicket(s.threads[s.taken[k]], k);
      }
    }
  }

  lemma GrantsStep(s: State, e: Event)
    requires Inv(s) && Enabled(s, e) && TicketsInv(Perform(s, e))
    ensures GrantsInv(Perform(s, e))
  {
    var s' := Perform(s, e);
    if e.TryExchange? {
      TryExchangeSandwich(s, e.t);
    }
    if s.owner < s.next {
      assert HasTicket(s.threads[s.taken[s.owner]], s.owner);
    }
    if s'.owner < s'.next {
      assert HasTicket(s'.threads[s'.taken[s'.owner]], s'.owner);
    }
  }

  lemma ReadsStep(s: State, e: Event)
    requires TicketsInv(s) && ReadsInv(s) && Enabled(s, e)
    ensures ReadsInv(Perform(s, e))
  {
  }

  lemma StepKeepsInv(s: State, e: Event, s': State)
    requires Inv(s) && Step(s, e, s')
    ensures Inv(s')
  {
    TicketsStep(s, e);
    GrantsStep(s, e);
    ReadsStep(s, e);
  }

  lemma RunsKeepInv(states: seq<State>, events: seq<Event>)
    requires Runs.IsRun(Init, Step, states, events)
    ensures forall i :: 0 <= i < |states| ==> Inv(states[i])
  {
    forall s | Init(s) ensures Inv(s) { }
    forall s, e, s' | Inv(s) && Step(s, e, s') ensures Inv(s') { StepKeepsInv(s, e, s'); }
    Runs.Invariance(Init, Step, Inv, states, events);
  }

  // ----- what the lock promises

  /** At most one thread holds the lock, through Lock or TryLock alike. */
  lemma MutualExclusion(states: seq<State>, events: seq<Event>, i: nat, t: Id, u: Id)
    requires Runs.IsRun(Init, Step, states, events) && i < |states|
    requires t in states[i].threads && states[i].threads[t].Holding?
    requires u in states[i].threads && states[i].threads[u].Holding?
    ensures t == u
  {
    RunsKeepInv(states, events);
  }

  /** Every outstanding ticket belongs to exactly one thread, and no thread has any other. */
  lemma TicketsAreUnique(states: seq<State>, events: seq<Event>, i: nat, t: Id, u: Id)
    requires Runs.IsRun(Init, Step, states, events) && i < |states|
    requires t in states[i].threads && u in states[i].threads && t != u
    ensures var s := states[i];
            && s.next == |s.taken|
            && (forall k: nat :: HasTicket(s.threads[t], k) ==> !HasTicket(s.threads[u], k) && s.owner <= k < s.next)
            && (forall k :: s.owner <= k < s.next ==> s.taken[k] in s.threads && HasTicket(s.threads[s.taken[k]], k))
  {
    RunsKeepInv(states, events);
  }

  /** Entries follow tickets, nobody skipped. */
  lemma FirstComeFirstServed(states: seq<State>, events: seq<Event>, i: nat)
    requires Runs.IsRun(Init, Step, states, events) && i < |states|
    ensures states[i].grants <= states[i].taken
  {
    RunsKeepInv(states, events);
  }

  /** A TryLock succeeds exactly when the lock was free and untouched at its compare-exchange since it read the
      owner; then it takes exactly one ticket and holds the lock. */
  lemma TryLockExact(states: seq<State>, events: seq<Event>, i: nat, t: Id)
    requires Runs.IsRun(Init, Step, states, events) && i < |events| && events[i] == TryExchange(t)
    ensures var s, s' := states[i], states[i + 1];
            && t in s.threads && s.threads[t].Ready? && t in s'.threads
            && (s'.threads[t].Holding? <==> s.owner == s.next == s.threads[t].owner)
            && (s'.threads[t].Holding? ==> s'.next == s.next + 1)
            && (!s'.threads[t].Holding? ==> s' == Go(s, t, Idle))
  {
    RunsKeepInv(states, events);
    assert Step(states[i], events[i], states[i + 1]);
    TryExchangeSandwich(states[i], t);
  }

  ghost predicate LoadsOwner(e: Event, t: Id) {
    e == LoadOwner(t)
  }

  /** If thread t is inside TryLock, this is the owner that it has read. */
  ghost predicate HasSeen(s: State, t: Id, owner: nat) {
    t in s.threads && (s.threads[t].Seen? || s.threads[t].Ready? ==> s.threads[t].owner == owner)
  }

  lemma HasSeenKept(s: State, e: Event, t: Id, owner: nat)
    requires HasSeen(s, t, owner) && Enabled(s, e) && !LoadsOwner(e, t)
    ensures HasSeen(Perform(s, e), t, owner)
  {
  }

  /** TryLock from its first read, at event i, to its compare-exchange, at event j: it gets the lock exactly when nobody
      has taken a ticket beyond the owner of event i, whatever the other threads did in between. */
  lemma TryLockSucceedsIff(states: seq<State>, events: seq<Event>, i: nat, j: nat, t: Id)
    requires Runs.IsRun(Init, Step, states, events) && i < j < |events|
    requires events[i] == LoadOwner(t) && events[j] == TryExchange(t)
    requires forall k :: i < k < j ==> !LoadsOwner(events[k], t)
    ensures t in states[j + 1].threads && (states[j + 1].threads[t].Holding? <==> states[j].next == states[i].owner)
    ensures !states[j + 1].threads[t].Holding? ==> states[j + 1].threads[t].Idle?
  {
    RunsKeepInv(states, events);
    assert Step(states[i], events[i], states[i + 1]) && Step(states[j], events[j], states[j + 1]);
    var owner := states[i].owner;
    forall s, e, s' | HasSeen(s, t, owner) && Step(s, e, s') && !LoadsOwner(e, t) ensures HasSeen(s', t, owner) {
      HasSeenKept(s, e, t, owner);
    }
    Histories.Lasts(Step, Inv, s => HasSeen(s, t, owner), e => LoadsOwner(e, t), states, events, i + 1, j);
  }

  /** A TryLock of a free lock that nobody else touches meanwhile gets it. */
  lemma UncontendedTryLock(states: seq<State>, events: seq<Event>, i: nat, t: Id)
    requires Runs.IsRun(Init, Step, states, events) && i + 2 < |events| && states[i].owner == states[i].next
    requires events[i] == LoadOwner(t) && events[i + 1] == LoadNext(t) && events[i + 2] == TryExchange(t)
    ensures t in states[i + 3].threads && states[i + 3].threads[t].Holding?
  {
    assert Step(states[i], events[i], states[i + 1]) && Step(states[i + 1], events[i + 1], states[i + 2]);
    TryLockSucceedsIff(states, events, i, i + 2, t);
  }

  /** Lock, from taking its ticket at event i on: it waits exactly until that ticket's turn. */
  lemma LockWaitsForItsTurn(states: seq<State>, events: seq<Event>, i: nat, j: nat, t: Id)
    requires Runs.IsRun(Init, Step, states, events) && i < j < |events|
    requires events[i] == TakeTicket(t) && events[j] == CheckOwner(t)
    requires forall k :: i < k < j ==> events[k] != TakeTicket(t)
    ensures t in states[j + 1].threads && (states[j + 1].threads[t].Holding? <==> states[j].owner == states[i].next)
    ensures !states[j + 1].threads[t].Holding? ==> states[j + 1] == states[j]
  {
    RunsKeepInv(states, events);
    assert Step(states[i], events[i], states[i + 1]) && Step(states[j], events[j], states[j + 1]);
    var ticket := states[i].next;
    Histories.Lasts(Step, Inv, s => HasDrawn(s, t, ticket), e => e == TakeTicket(t), states, events, i + 1, j);
  }

  /** If thread t is waiting in Lock, it is for this ticket. */
  ghost predicate HasDrawn(s: State, t: Id, ticket: nat) {
    t in s.threads && (s.threads[t].Waiting? ==> s.threads[t].ticket == ticket)
  }

  /** The lock is never lost: while tickets are outstanding, the owner's ticket is in the hands of a thread that
      holds the lock or enters at its next look. */
  lemma NeverStuck(states: seq<State>, events: seq<Event>, i: nat)
    requires Runs.IsRun(Init, Step, states, events) && i < |states| && states[i].owner < states[i].next
    ensures var s := states[i];
            s.next == |s.taken| &&
            var t := s.taken[s.owner];
            && t in s.threads
            && (s.threads[t].Holding? || (Enabled(s, CheckOwner(t)) && Perform(s, CheckOwner(t)).threads[t].Holding?))
  {
    RunsKeepInv(states, events);
    var s := states[i];
    assert HasTicket(s.threads[s.taken[s.owner]], s.owner);
  }

  // ----- from the call to the return

  /** In its own code, with the lock or without. */
  predicate InOwnCode(pc: Pc) {
    pc.Idle? || pc.Holding?
  }

  ghost predicate IsHome(s: State, t: Id) {
    t in s.threads && InOwnCode(s.threads[t])
  }

  ghost predicate HasLock(s: State, t: Id, ticket: nat) {
    t in s.threads && s.threads[t] == Holding(ticket) && s.owner == ticket
  }

  ghost predicate Draws(s: State, t: Id, ticket: nat) {
    t in s.threads && s.threads[t] == Waiting(ticket)
  }

  /** Lock, called at event i and back in state j: it has the lock, in the turn of the ticket that it took. */
  lemma LockCall(states: seq<State>, events: seq<Event>, i: nat, j: nat, t: Id)
    requires Runs.IsRun(Init, Step, states, events) && i < |events| && events[i] == TakeTicket(t)
    requires Histories.Returns((s: State) => IsHome(s, t), states, i, j)
    ensures HasLock(states[j], t, states[i].next) && states[i + 1].next == states[i].next + 1
  {
    RunsKeepInv(states, events);
    assert Step(states[i], events[i], states[i + 1]);
    var ticket := states[i].next;
    Histories.Ends(Step, Inv, s => IsHome(s, t), s => Draws(s, t, ticket), s => HasLock(s, t, ticket), states, events, i, j);
  }

  ghost predicate Tries(s: State, t: Id, owner: nat) {
    t in s.threads && (s.threads[t].Seen? || s.threads[t].Ready?) && s.threads[t].owner == owner
  }

  lemma TriesOnOrEnds(s: State, e: Event, t: Id, owner: nat)
    requires Enabled(s, e) && Tries(s, t, owner)
    ensures var s' := Perform(s, e);
            if e == TryExchange(t) then IsHome(s', t) && (s'.threads[t].Holding? <==> s.next == owner)
            else Tries(s', t, owner) && !IsHome(s', t)
  {
  }

  /** TryLock, called at event i and back in state j: it never waits, and it has the lock exactly if its compare-exchange
      found the next ticket to be the owner that it had read at event i. */
  lemma TryLockCall(states: seq<State>, events: seq<Event>, i: nat, j: nat, t: Id)
    requires Runs.IsRun(Init, Step, states, events) && i < |events| && events[i] == LoadOwner(t)
    requires Histories.Returns((s: State) => IsHome(s, t), states, i, j)
    ensures events[j - 1] == TryExchange(t)
    ensures states[j].threads[t].Holding? <==> states[j - 1].next == states[i].owner
  {
    RunsKeepInv(states, events);
    assert Step(states[i], events[i], states[i + 1]);
    var owner := states[i].owner;
    forall s, e, s' | Tries(s, t, owner) && Step(s, e, s') ensures Tries(s', t, owner) || IsHome(s', t) {
      TriesOnOrEnds(s, e, t, owner);
    }
    Histories.Ends(Step, Inv, s => IsHome(s, t), s => Tries(s, t, owner), s => IsHome(s, t), states, events, i, j);
    assert Step(states[j - 1], events[j - 1], states[j - 1 + 1]);
    TriesOnOrEnds(states[j - 1], events[j - 1], t, owner);
  }

  /** Unlock leaves the lock free, or lets in whoever took the next ticket. */
  lemma UnlockLetsNextIn(states: seq<State>, events: seq<Event>, i: nat, t: Id)
    requires Runs.IsRun(Init, Step, states, events) && i < |events| && events[i] == Unlock(t)
    ensures var s, s' := states[i], states[i + 1];
            && t in s'.threads && s'.threads[t].Idle? && s.owner < s.next == s'.next == |s.taken|
            && if s.next == s.owner + 1 then s'.owner == s'.next
               else
                 var u := s.taken[s.owner + 1];
                 && s'.owner < s'.next && u in s'.threads && s'.threads[u] == Waiting(s'.owner)
                 && Perform(s', CheckOwner(u)).threads[u].Holding?
  {
    RunsKeepInv(states, events);
    var s, s' := states[i], states[i + 1];
    assert Step(s, events[i], s');
    if s.next > s.owner + 1 {
      NeverStuck(states, events, i + 1);
      assert forall u :: u in s'.threads ==> !s'.threads[u].Holding?;
    }
  }

  /** Nobody ever has to wait inside TryLock, and in Lock only for its turn. */
  lemma EveryoneCanAct(states: seq<State>, events: seq<Event>, i: nat, t: Id)
    requires Runs.IsRun(Init, Step, states, events) && i < |states| && t in states[i].threads
    ensures var s := states[i];
            match s.threads[t]
            case Idle => Enabled(s, TakeTicket(t)) && Enabled(s, LoadOwner(t))
            case Waiting(ticket) => s.owner == ticket ==> IsHome(Perform(s, CheckOwner(t)), t)
            case Holding(_) => Enabled(s, Unlock(t))
            case Seen(_) => Enabled(s, LoadNext(t)) && Perform(s, LoadNext(t)).threads[t].Ready?
            case Ready(_, _) => Enabled(s, TryExchange(t)) && IsHome(Perform(s, TryExchange(t)), t)
  {
    RunsKeepInv(states, events);
  }

  /** The lock as an object, one method per atomic access. */
  class TicketLock {
    var next: nat
    var owner: nat
    var threads: map<Id, Pc>
    ghost var taken: seq<Id>
    ghost var grants: seq<Id>

    ghost function View(): State
      reads this
    {
      State(next, owner, threads, taken, grants)
    }

    ghost predicate Valid()
      reads this
    {
      Inv(View())
    }

    constructor (ids: set<Id>)
      ensures Valid() && Init(View()) && threads.Keys == ids
    {
      next, owner := 0, 0;
      threads := map t | t in ids :: Idle;
      taken, grants := [], [];
    }

    method TakeTicket(t: Id)
      requires Valid() && Enabled(View(), Event.TakeTicket(t))
      modifies this
      ensures Valid() && View() == Perform(old(View()), Event.TakeTicket(t))
    {
      threads := threads[t := Waiting(next)];
      next := next + 1;
      taken := taken + [t];
      StepKeepsInv(old(View()), Event.TakeTicket(t), View());
    }

    method CheckOwner(t: Id) returns (entered: bool)
      requires Valid() && Enabled(View(), Event.CheckOwner(t))
      modifies this
      ensures Valid() && View() == Perform(old(View()), Event.CheckOwner(t))
      ensures entered ==> forall u :: u in threads && u != t ==> !threads[u].Holding?
    {
      entered := threads[t].ticket == owner;
      if entered {
        threads := threads[t := Holding(owner)];
        grants := grants + [t];
      }
      StepKeepsInv(old(View()), Event.CheckOwner(t), View());
    }

    method LoadOwner(t: Id)
      requires Valid() && Enabled(View(), Event.LoadOwner(t))
      modifies this
      ensures Valid() && View() == Perform(old(View()), Event.LoadOwner(t))
      ensures threads == old(threads)[t := Seen(owner)] && owner == old(owner)
    {
      threads := threads[t := Seen(owner)];
      StepKeepsInv(old(View()), Event.LoadOwner(t), View());
    }

    method LoadNext(t: Id)
      requires Valid() && Enabled(View(), Event.LoadNext(t))
      modifies this
      ensures Valid() && View() == Perform(old(View()), Event.LoadNext(t))
    {
      threads := threads[t := Ready(threads[t].owner, next + 1)];
      StepKeepsInv(old(View()), Event.LoadNext(t), View());
    }

    method TryExchange(t: Id) returns (locked: bool)
      requires Valid() && Enabled(View(), Event.TryExchange(t))
      modifies this
      ensures Valid() && View() == Perform(old(View()), Event.TryExchange(t))
      ensures locked <==> old(owner) == old(next) == old(threads[t]).owner
      ensures locked ==> next == old(next) + 1 && forall u :: u in threads && u != t ==> !threads[u].Holding?
    {
      TryExchangeSandwich(View(), t);
      var pc := threads[t];
      locked := next == pc.owner;
      if locked {
        next := pc.desired;
        taken, grants := taken + [t], grants + [t];
        threads := threads[t := Holding(pc.owner)];
      } else {
        threads := threads[t := Idle];
      }
      StepKeepsInv(old(View()), Event.TryExchange(t), View());
    }

    method Unlock(t: Id)
      requires Valid() && Enabled(View(), Event.Unlock(t))
      modifies this
      ensures Valid() && View() == Perform(old(View()), Event.Unlock(t))
    {
      owner := owner + 1;
      threads := threads[t := Idle];
      StepKeepsInv(old(View()), Event.Unlock(t), View());
    }
  }
}
