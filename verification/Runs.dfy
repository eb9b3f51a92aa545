/** Runs of a transition system, and the induction principle every protocol model below uses.
    A run is a sequence of states joined by events; each event is one atomic action of one thread,
    so a run is one interleaving and "for all runs" means "for every schedule". */
module Runs {

  ghost predicate IsRun<S(!new), E(!new)>(init: S -> bool, step: (S, E, S) -> bool, states: seq<S>, events: seq<E>) {
    && |states| == |events| + 1
    && init(states[0])
    && forall i :: 0 <= i < |events| ==> step(states[i], events[i], states[i + 1])
  }

  /** A predicate that holds initially and survives every step holds in every state of every run. */
  lemma {:induction false} Invariance<S(!new), E(!new)>(
      init: S -> bool, step: (S, E, S) -> bool, inv: S -> bool, states: seq<S>, events: seq<E>)
    requires IsRun(init, step, states, events)
    requires forall s :: init(s) ==> inv(s)
    requires forall s, e, s' :: inv(s) && step(s, e, s') ==> inv(s')
    ensures forall i :: 0 <= i < |states| ==> inv(states[i])
    decreases |events|
  {
    if events != [] {
      var n := |events| - 1;
      Invariance(init, step, inv, states[..n + 1], events[..n]);
      assert states[..n + 1][n] == states[n];
      assert step(states[n], events[n], states[n + 1]);
    }
  }

  /** Once a predicate that survives every step (from states satisfying an invariant) holds, it holds ever after. */
  lemma {:induction false} Stability<S(!new), E(!new)>(
      init: S -> bool, step: (S, E, S) -> bool, inv: S -> bool, stable: S -> bool,
      states: seq<S>, events: seq<E>, first: nat, last: nat)
    requires IsRun(init, step, states, events)
    requires forall i :: 0 <= i < |states| ==> inv(states[i])
    requires forall s, e, s' :: inv(s) && stable(s) && step(s, e, s') ==> stable(s')
    requires first <= last < |states| && stable(states[first])
    ensures stable(states[last])
    decreases last - first
  {
    if first < last {
      assert step(states[first], events[first], states[first + 1]);
      Stability(init, step, inv, stable, states, events, first + 1, last);
    }
  }

  /** A measure that every step lowers bounds how long a stretch of a run can be. */
  lemma {:induction false} Descent<S(!new), E(!new)>(
      step: (S, E, S) -> bool, inv: S -> bool, measure: S -> nat,
      states: seq<S>, events: seq<E>, first: nat, last: nat)
    requires |states| == |events| + 1 && first <= last < |states|
    requires forall i :: first <= i <= last ==> inv(states[i])
    requires forall i :: first <= i < last ==> step(states[i], events[i], states[i + 1])
    requires forall s, e, s' :: inv(s) && step(s, e, s') ==> measure(s') < measure(s)
    ensures last - first + measure(states[last]) <= measure(states[first])
    decreases last - first
  {
    if first < last {
      assert step(states[first], events[first], states[first + 1]);
      Descent(step, inv, measure, states, events, first + 1, last);
    }
  }

  /** If every step, looked at through an abstraction, is a step of another system or none, every run is one of its runs. */
  lemma {:induction false} Projection<S(!new), E(!new), T(!new), F(!new)>(
      init: S -> bool, step: (S, E, S) -> bool, lowInit: T -> bool, lowStep: (T, F, T) -> bool,
      inv: S -> bool, abs: S -> T, states: seq<S>, events: seq<E>) returns (below: seq<T>, belowEvents: seq<F>)
    requires IsRun(init, step, states, events)
    requires forall i :: 0 <= i < |states| ==> inv(states[i])
    requires forall s :: init(s) ==> lowInit(abs(s))
    requires forall s, e, s' :: inv(s) && step(s, e, s') && abs(s') != abs(s) ==> exists f :: lowStep(abs(s), f, abs(s'))
    ensures IsRun(lowInit, lowStep, below, belowEvents) && below[|below| - 1] == abs(states[|states| - 1])
    decreases |events|
  {
    var n := |events|;
    if n == 0 {
      below, belowEvents := [abs(states[0])], [];
    } else {
      below, belowEvents := Projection(init, step, lowInit, lowStep, inv, abs, states[..n], events[..n - 1]);
      assert step(states[n - 1], events[n - 1], states[n]);
      if abs(states[n]) != abs(states[n - 1]) {
        var f :| lowStep(abs(states[n - 1]), f, abs(states[n]));
        below, belowEvents := below + [abs(states[n])], belowEvents + [f];
      }
    }
  }
}
