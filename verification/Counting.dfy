/** How many threads stand at a given kind of program point. */
module Counting {

  ghost function Where<P>(threads: map<int, P>, p: P -> bool): set<int> {
    set t | t in threads && p(threads[t])
  }

  ghost function Count<P>(threads: map<int, P>, p: P -> bool): nat {
    |Where(threads, p)|
  }

  /** Moving one thread changes the count by that thread alone. */
  lemma CountMove<P>(threads: map<int, P>, t: int, pc: P, p: P -> bool)
    requires t in threads
    ensures Count(threads[t := pc], p) + (if p(threads[t]) then 1 else 0)
            == Count(threads, p) + (if p(pc) then 1 else 0)
  {
    var before, after := Where(threads, p), Where(threads[t := pc], p);
    WithOrWithout(before, t);
    WithOrWithout(after, t);
    forall u ensures u in after - {t} <==> u in before - {t} {
      assert u != t ==> (u in threads[t := pc] <==> u in threads);
    }
    assert after - {t} == before - {t};
  }

  lemma WithOrWithout(s: set<int>, t: int)
    ensures |s| == |s - {t}| + (if t in s then 1 else 0)
  {
    if t in s {
      assert s == (s - {t}) + {t};
    } else {
      assert s == s - {t};
    }
  }

  lemma CountSome<P>(threads: map<int, P>, t: int, p: P -> bool)
    requires t in threads && p(threads[t])
    ensures Count(threads, p) >= 1
  {
    assert t in Where(threads, p);
  }

  lemma CountTwo<P>(threads: map<int, P>, t: int, u: int, p: P -> bool)
    requires t in threads && u in threads && t != u && p(threads[t]) && p(threads[u])
    ensures Count(threads, p) >= 2
  {
    assert {t, u} <= Where(threads, p);
    assert |Where(threads, p) - {t, u}| == |Where(threads, p)| - |{t, u}|;
  }

  lemma CountNone<P>(threads: map<int, P>, p: P -> bool)
    requires forall t :: t in threads ==> !p(threads[t])
    ensures Count(threads, p) == 0
  {
    assert forall t :: t !in Where(threads, p);
  }

  // ----- weights added up over threads

  ghost function Sum<P>(threads: map<int, P>, weight: P -> nat): nat
    decreases |threads|
  {
    if forall t :: t !in threads then 0
    else
      var t :| t in threads;
      weight(threads[t]) + Sum(threads - {t}, weight)
  }

  lemma {:induction false} SumOut<P>(threads: map<int, P>, t: int, weight: P -> nat)
    requires t in threads
    ensures Sum(threads, weight) == weight(threads[t]) + Sum(threads - {t}, weight)
    decreases |threads|
  {
    var u :| u in threads && Sum(threads, weight) == weight(threads[u]) + Sum(threads - {u}, weight);
    if u != t {
      SumOut(threads - {u}, t, weight);
      SumOut(threads - {t}, u, weight);
      assert (threads - {u}) - {t} == (threads - {t}) - {u};
    }
  }

  lemma SumMove<P>(threads: map<int, P>, t: int, pc: P, weight: P -> nat)
    requires t in threads
    ensures Sum(threads[t := pc], weight) + weight(threads[t]) == Sum(threads, weight) + weight(pc)
  {
    SumOut(threads, t, weight);
    SumOut(threads[t := pc], t, weight);
    assert threads[t := pc] - {t} == threads - {t};
  }

  lemma CountOut<P>(threads: map<int, P>, t: int, p: P -> bool)
    requires t in threads
    ensures Count(threads, p) == (if p(threads[t]) then 1 else 0) + Count(threads - {t}, p)
  {
    var all, rest := Where(threads, p), Where(threads - {t}, p);
    forall u ensures u in rest <==> u in all && u != t { }
    assert rest == all - {t};
    WithOrWithout(all, t);
  }

  lemma {:induction false} SumChange<P>(threads: map<int, P>, old': P -> nat, new': P -> nat, extra: P -> nat)
    requires forall t :: t in threads ==> new'(threads[t]) <= old'(threads[t]) + extra(threads[t])
    ensures Sum(threads, new') <= Sum(threads, old') + Sum(threads, extra)
    decreases |threads|
  {
    if t :| t in threads {
      SumOut(threads, t, old');
      SumOut(threads, t, new');
      SumOut(threads, t, extra);
      SumChange(threads - {t}, old', new', extra);
    }
  }

  lemma OneMore(d: nat, n: nat)
    ensures d * (1 + n) == d + d * n
  {
  }

  lemma {:induction false} SumCharge<P>(threads: map<int, P>, extra: P -> nat, p: P -> bool, d: nat)
    requires forall t :: t in threads ==> extra(threads[t]) == (if p(threads[t]) then d else 0)
    ensures Sum(threads, extra) == d * Count(threads, p)
    decreases |threads|
  {
    if t :| t in threads {
      SumOut(threads, t, extra);
      CountOut(threads, t, p);
      SumCharge(threads - {t}, extra, p, d);
      OneMore(d, Count(threads - {t}, p));
    } else {
      CountNone(threads, p);
    }
  }

  lemma {:induction false} SumBound<P>(threads: map<int, P>, weight: P -> nat, d: nat)
    requires forall t :: t in threads ==> weight(threads[t]) <= d
    ensures Sum(threads, weight) <= d * |threads|
    decreases |threads|
  {
    if t :| t in threads {
      SumOut(threads, t, weight);
      SumBound(threads - {t}, weight, d);
      assert threads.Keys == (threads - {t}).Keys + {t};
      assert d * |threads| == d + d * (|threads| - 1);
    }
  }
}
