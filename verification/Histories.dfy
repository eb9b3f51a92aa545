/** What happens during a stretch of a run: facts that last until a given event, how often something happens, and what
    is gathered on the way. A stretch goes from the state at `first` to the state at `last`. */
module Histories {

  ghost predicate Stretch<S(!new), E(!new)>(step: (S, E, S) -> bool, states: seq<S>, events: seq<E>, first: nat, last: nat) {
    && |states| == |events| + 1 && first <= last < |states|
    && forall k :: first <= k < last ==> step(states[k], events[k], states[k + 1])
  }

  /** What survives every step but those of a given kind lasts until one of them. */
  lemma {:induction false} Lasts<S(!new), E(!new)>(
      step: (S, E, S) -> bool, inv: S -> bool, fact: S -> bool, stop: E -> bool,
      states: seq<S>, events: seq<E>, first: nat, last: nat)
    requires Stretch(step, states, events, first, last)
    requires forall k :: first <= k <= last ==> inv(states[k])
    requires forall k :: first <= k < last ==> !stop(events[k])
    requires forall s, e, s' :: inv(s) && fact(s) && step(s, e, s') && !stop(e) ==> fact(s')
    requires fact(states[first])
    ensures fact(states[last])
    decreases last - first
  {
    if first < last {
      assert step(states[first], events[first], states[first + 1]);
      Lasts(step, inv, fact, stop, states, events, first + 1, last);
    }
  }

  // ----- calls

  /** A call made at event i has just returned in state j: back home for the first time since. */
  ghost predicate Returns<S(!new)>(home: S -> bool, states: seq<S>, i: nat, j: nat) {
    && i < j < |states| && home(states[j])
    && forall k :: i < k < j ==> !home(states[k])
  }

  /** If every step from inside a call either stays inside or ends it in one of these ways, that is how it returns. */
  lemma {:induction false} Ends<S(!new), E(!new)>(
      step: (S, E, S) -> bool, inv: S -> bool, home: S -> bool, inside: S -> bool, done: S -> bool,
      states: seq<S>, events: seq<E>, i: nat, j: nat)
    requires Stretch(step, states, events, i, j) && Returns(home, states, i, j)
    requires forall k :: i <= k <= j ==> inv(states[k])
    requires forall s, e, s' :: inv(s) && inside(s) && step(s, e, s') ==> inside(s') || done(s')
    requires forall s :: inside(s) ==> !home(s)
    requires forall s :: done(s) ==> home(s)
    requires inside(states[i + 1])
    ensures i + 1 < j && done(states[j])
    ensures forall k :: i < k < j ==> inside(states[k])
    decreases j - i
  {
    assert i + 1 < j;
    assert step(states[i + 1], events[i + 1], states[i + 1 + 1]);
    if i + 2 < j {
      assert !home(states[i + 2]);
      Ends(step, inv, home, inside, done, states, events, i + 1, j);
    }
  }

  // ----- counting

  /** How many of the steps are of this kind. */
  ghost function Times<S(!new), E(!new)>(
      kind: (S, E, S) -> bool, states: seq<S>, events: seq<E>, first: nat, last: nat): nat
    requires |states| == |events| + 1 && first <= last < |states|
    decreases last
  {
    if first == last then 0
    else
      Times(kind, states, events, first, last - 1) + (if kind(states[last - 1], events[last - 1], states[last]) then 1 else 0)
  }

  /** A number that every step of this kind raises by one, and no other step changes. */
  lemma {:induction false} CountsTimes<S(!new), E(!new)>(
      kind: (S, E, S) -> bool, number: S -> int, states: seq<S>, events: seq<E>, first: nat, last: nat)
    requires |states| == |events| + 1 && first <= last < |states|
    requires forall k :: first <= k < last ==>
               number(states[k + 1]) == number(states[k]) + (if kind(states[k], events[k], states[k + 1]) then 1 else 0)
    ensures number(states[last]) == number(states[first]) + Times(kind, states, events, first, last)
    decreases last
  {
    if first < last {
      CountsTimes(kind, number, states, events, first, last - 1);
      assert number(states[last - 1 + 1]) == number(states[last]);
    }
  }

  /** Step k keeps a fact about a number if the number is raised by one in case the step is of this kind. */
  ghost predicate Advances<S(!new), E(!new)>(
      kind: (S, E, S) -> bool, fact: (S, nat) -> bool, states: seq<S>, events: seq<E>, k: nat)
    requires |states| == |events| + 1 && k < |events|
  {
    forall n: nat :: fact(states[k], n) ==> fact(states[k + 1], if kind(states[k], events[k], states[k + 1]) then n + 1 else n)
  }

  lemma {:induction false} CountedAlong<S(!new), E(!new)>(
      kind: (S, E, S) -> bool, fact: (S, nat) -> bool, states: seq<S>, events: seq<E>, first: nat, last: nat)
    requires |states| == |events| + 1 && first <= last < |states| && fact(states[first], 0)
    requires forall k :: first <= k < last ==> Advances(kind, fact, states, events, k)
    ensures fact(states[last], Times(kind, states, events, first, last))
    decreases last
  {
    if first < last {
      var k := last - 1;
      CountedAlong(kind, fact, states, events, first, k);
      assert Advances(kind, fact, states, events, k);
    }
  }

  // ----- gathering

  /** What the steps hand out, in order. */
  ghost function Gathered<S(!new), E(!new), T>(
      what: (S, E, S) -> seq<T>, states: seq<S>, events: seq<E>, first: nat, last: nat): seq<T>
    requires |states| == |events| + 1 && first <= last < |states|
    decreases last
  {
    if first == last then []
    else Gathered(what, states, events, first, last - 1) + what(states[last - 1], events[last - 1], states[last])
  }

  /** Whatever goes in at one end of a queue comes out at the other, in the same order. */
  lemma {:induction false} FirstInFirstOut<S(!new), E(!new), T>(
      entering: (S, E, S) -> seq<T>, leaving: (S, E, S) -> seq<T>, content: S -> seq<T>,
      states: seq<S>, events: seq<E>, first: nat, last: nat)
    requires |states| == |events| + 1 && first <= last < |states|
    requires forall k :: first <= k < last ==>
               content(states[k]) + entering(states[k], events[k], states[k + 1])
               == leaving(states[k], events[k], states[k + 1]) + content(states[k + 1])
    ensures content(states[first]) + Gathered(entering, states, events, first, last)
            == Gathered(leaving, states, events, first, last) + content(states[last])
    decreases last
  {
    if first < last {
      var k := last - 1;
      FirstInFirstOut(entering, leaving, content, states, events, first, k);
      var into, out := entering(states[k], events[k], states[last]), leaving(states[k], events[k], states[last]);
      var before, gone := Gathered(entering, states, events, first, k), Gathered(leaving, states, events, first, k);
      assert content(states[k]) + entering(states[k], events[k], states[k + 1])
          == leaving(states[k], events[k], states[k + 1]) + content(states[k + 1]);
      Regroup(content(states[first]), before, into, gone, content(states[k]), out, content(states[last]));
    }
  }

  lemma Regroup<T>(a: seq<T>, b: seq<T>, c: seq<T>, d: seq<T>, e: seq<T>, f: seq<T>, g: seq<T>)
    requires a + b == d + e && e + c == f + g
    ensures a + (b + c) == (d + f) + g
  {
    assert a + (b + c) == (a + b) + c;
    assert (d + e) + c == d + (e + c);
    assert d + (f + g) == (d + f) + g;
  }
}
