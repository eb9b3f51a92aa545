/** The coordinator of the work-stealing pool: which workers look for victims (active), which only wait for
    their own queue (passive), and which sleep. Every method below is one section under balance_changes_. */
module Coordination {
  import opened Lists

  datatype Stealing = Active | Passive
  datatype Permission = Allowed | TemporaryProhibited | PermanentlyProhibited

  /** How many workers end up moved from the passive tail to the active head. */
  function Shift(a: nat, p: nat): (k: nat)
    ensures k <= a + p
  {
    if a > p then (a + p) % 2 else (a + p + 1) / 2 - a
  }

  /** Rebalancing in closed form: read active then passive as one line, turn it by Shift places, and cut it in
      the middle, the odd worker going to the active half. */
  function Rebalanced<T>(active: seq<T>, passive: seq<T>): (seq<T>, seq<T>) {
    var line := Rotated(active + passive, Shift(|active|, |passive|));
    var half := (|line| + 1) / 2;
    (line[..half], line[half..])
  }

  /** Rebalancing loses nobody, duplicates nobody, and splits n workers into ceil(n/2) active and floor(n/2) passive. */
  lemma RebalancedContents<T>(active: seq<T>, passive: seq<T>)
    ensures var (a, p) := Rebalanced(active, passive);
            && |a| == (|active| + |passive| + 1) / 2
            && |p| == (|active| + |passive|) / 2
            && multiset(a) + multiset(p) == multiset(active) + multiset(passive)
            && (NoDup(active + passive) ==> NoDup(a + p))
  {
    var line := Rotated(active + passive, Shift(|active|, |passive|));
    var half := (|line| + 1) / 2;
    RotatedContents(active + passive, Shift(|active|, |passive|));
    assert line == line[..half] + line[half..];
  }

  /** The linked workers before and after are the same ones. */
  lemma RebalancedMembers<T>(active: seq<T>, passive: seq<T>, x: T)
    ensures var (a, p) := Rebalanced(active, passive);
            x in a || x in p <==> x in active || x in passive
  {
    RebalancedContents(active, passive);
    var (a, p) := Rebalanced(active, passive);
    assert x in multiset(a) + multiset(p) <==> x in multiset(active) + multiset(passive);
  }

  /** Whoever enters at the active head ends up among the active ones. */
  lemma NewcomerIsActive<T>(active: seq<T>, passive: seq<T>, x: T)
    ensures x in Rebalanced([x] + active, passive).0
  {
    var line := [x] + active + passive;
    if |line| > 1 {
      var shift := Shift(|[x] + active|, |passive|);
      assert Rotated(line, shift)[shift] == line[0];
      assert Rebalanced([x] + active, passive).0[shift] == x;
    } else {
      assert Rotated(line, 1) == line;
      assert Rebalanced([x] + active, passive).0 == [x];
    }
  }

  /** A list that is already balanced is left exactly as it is. */
  lemma RebalancedFixpoint<T>(active: seq<T>, passive: seq<T>)
    requires |active| == |passive| || |active| == |passive| + 1
    ensures |active| == |passive| ==> Rebalanced(active, passive) == (active, passive)
    ensures |active| == |passive| + 1 ==>
              Rebalanced(active, passive) == Rebalanced(active[..|active| - 1], [active[|active| - 1]] + passive)
  {
    var n := |active|;
    if n == |passive| {
      assert Rotated(active + passive, 0) == active + passive;
    } else {
      assert active[..n - 1] + ([active[n - 1]] + passive) == active + passive;
    }
  }

  /** Moving the last passive element in front of the active ones turns the line by one more place. */
  lemma TurnOnce<T>(active: seq<T>, passive: seq<T>, line: seq<T>, k: nat)
    requires passive != [] && k < |line| && active + passive == Rotated(line, k)
    ensures ([passive[|passive| - 1]] + active) + passive[..|passive| - 1] == Rotated(line, k + 1)
  {
    var turned := Rotated(line, k);
    var n := |line|;
    assert turned[n - 1] == passive[|passive| - 1];
    assert turned[..n - 1] == active + passive[..|passive| - 1];
    assert Rotated(line, k + 1) == [turned[n - 1]] + turned[..n - 1];
  }

  /** A line turned far enough and cut in the middle. */
  lemma CutInTheMiddle<T>(active: seq<T>, passive: seq<T>, a: seq<T>, p: seq<T>)
    requires a + p == Rotated(active + passive, Shift(|active|, |passive|))
    requires |a| == (|active| + |passive| + 1) / 2
    ensures (a, p) == Rebalanced(active, passive)
  {
    assert a == (a + p)[..|a|] && p == (a + p)[|a|..];
  }

  /** How many the second loop promotes after the first has demoted the surplus. */
  lemma ShiftIsPromotion(a: nat, p: nat)
    ensures var demotedTo := if a > p then (a + p) / 2 else a;
            var rest := a + p - demotedTo;
            Shift(a, p) == (if demotedTo < rest then (rest - demotedTo + 1) / 2 else 0)
            && demotedTo + Shift(a, p) == (a + p + 1) / 2
  {
  }

  lemma SameMembers<T>(active: seq<T>, passive: seq<T>, a: seq<T>, p: seq<T>)
    requires a + p == active + passive
    ensures forall i :: 0 <= i < |p| ==> p[i] in active || p[i] in passive
  {
    forall i | 0 <= i < |p| ensures p[i] in active || p[i] in passive {
      assert p[i] == (active + passive)[|a| + i];
    }
  }

  lemma OutsidersStayOut<T>(active: seq<T>, passive: seq<T>, others: set<T>)
    requires forall x :: x in others ==> x !in active && x !in passive
    ensures var (a, p) := Rebalanced(active, passive); forall x :: x in others ==> x !in a && x !in p
  {
    forall x | x in others
      ensures x !in Rebalanced(active, passive).0 && x !in Rebalanced(active, passive).1
    {
      RebalancedMembers(active, passive, x);
    }
  }

  /** What rebalancing leaves of a consistent pair of lists. */
  lemma RebalancedKeeps<T>(active: seq<T>, passive: seq<T>, others: set<T>)
    requires NoDup(active + passive) && forall x :: x in others ==> x !in active && x !in passive
    ensures var (a, p) := Rebalanced(active, passive);
            && NoDup(a + p) && |a| + |p| == |active| + |passive|
            && forall x :: x in others ==> x !in a && x !in p
  {
    RebalancedContents(active, passive);
    OutsidersStayOut(active, passive, others);
  }

  /** Unlinking brings nobody in. */
  lemma StaysOut<T>(active: seq<T>, passive: seq<T>, worker: T, others: set<T>)
    requires forall x :: x in others ==> x !in active && x !in passive
    ensures forall x :: x in others ==> x !in Without(active, worker) && x !in Without(passive, worker)
    ensures forall i :: 0 <= i < |Without(active, worker)| ==> Without(active, worker)[i] in active
    ensures forall i :: 0 <= i < |Without(passive, worker)| ==> Without(passive, worker)[i] in passive
  {
    WithoutContents(active, worker);
    WithoutContents(passive, worker);
  }

  class Worker {
    var impudence: Stealing

    constructor ()
      ensures impudence == Active
    {
      impudence := Active;
    }
  }

  class Coordinator {
    var active: seq<Worker>
    var passive: seq<Worker>
    var sleeping: set<Worker>
    var permission: Permission
    var busy: nat

    /** Nobody is listed twice, each worker's flag agrees with its list, the idle counter counts the linked
        workers, and sleepers are unlinked. */
    ghost predicate Valid()
      reads this, active, passive
    {
      && NoDup(active + passive)
      && FlagsAgree()
      && busy == |active| + |passive|
      && forall w :: w in sleeping ==> w !in active && w !in passive
    }

    ghost predicate FlagsAgree()
      reads this, active, passive
    {
      && (forall w :: w in active ==> w.impudence == Active)
      && (forall w :: w in passive ==> w.impudence == Passive)
    }

    constructor ()
      ensures Valid() && active == passive == [] && sleeping == {} && permission == Allowed && busy == 0
    {
      active, passive, sleeping, permission, busy := [], [], {}, Allowed, 0;
    }

    method RebalanceUnsafe()
      requires NoDup(active + passive) && FlagsAgree()
      modifies `active, `passive, active, passive
      ensures (active, passive) == Rebalanced(old(active), old(passive))
      ensures FlagsAgree()
    {
      ghost var a, p := active, passive;
      var demoted := DemoteSurplus();
      SameMembers(a, p, active, passive);
      var promoted := PromoteShortfall();
      ShiftIsPromotion(|a|, |p|);
      CutInTheMiddle(a, p, active, passive);
    }

    /** The first loop of rebalancing: active tail to passive head. */
    method DemoteSurplus() returns (moved: nat)
      requires NoDup(active + passive) && FlagsAgree()
      modifies `active, `passive, active
      ensures active + passive == old(active + passive)
      ensures |active| == if old(|active| > |passive|) then old(|active| + |passive|) / 2 else old(|active|)
      ensures FlagsAgree()
    {
      ghost var line := active + passive;
      ghost var crowded := |active| > |passive|;
      moved := 0;
      NoDupSplit(active, passive);
      while |active| > |passive|
        invariant active + passive == line && active <= old(active)
        invariant crowded ==> |active| >= |line| / 2
        invariant !crowded ==> |active| == old(|active|)
        invariant NoDup(active) && (forall w :: w in active ==> w !in passive)
        invariant FlagsAgree()
        decreases |active|
      {
        var last := |active| - 1;
        var node := active[last];
        assert node !in active[..last] && node in old(active);
        node.impudence := Passive;
        assert [node] + passive == active[last..] + passive;
        active, passive := active[..last], [node] + passive;
        moved := moved + 1;
      }
    }

    /** The second loop: passive tail to active head, which turns the combined line. */
    method PromoteShortfall() returns (moved: nat)
      requires NoDup(active + passive) && FlagsAgree()
      modifies `active, `passive, passive
      ensures moved == if |old(active)| < |old(passive)| then (|old(passive)| - |old(active)| + 1) / 2 else 0
      ensures active + passive == Rotated(old(active + passive), moved)
      ensures |active| == old(|active|) + moved
      ensures FlagsAgree()
    {
      ghost var line := active + passive;
      moved := 0;
      assert line == Rotated(line, 0);
      NoDupSplit(active, passive);
      while |active| < |passive|
        invariant |active| == old(|active|) + moved && |active| + |passive| == |line|
        invariant moved > 0 ==> |active| <= (|line| + 1) / 2
        invariant active + passive == Rotated(line, moved)
        invariant passive <= old(passive)
        invariant NoDup(passive) && (forall w :: w in active ==> w !in passive)
        invariant FlagsAgree()
        decreases |passive|
      {
        var last := |passive| - 1;
        var node := passive[last];
        assert node !in passive[..last] && node in old(passive);
        TurnOnce(active, passive, line, moved);
        node.impudence := Active;
        active, passive := [node] + active, passive[..last];
        moved := moved + 1;
      }
    }

    method AcquireUnsafe(worker: Worker)
      requires Valid() && worker !in active && worker !in passive && worker !in sleeping
      modifies `active, `passive, `busy, active, passive, worker
      ensures Valid()
      ensures (active, passive) == Rebalanced([worker] + old(active), old(passive))
      ensures busy == old(busy) + 1
    {
      busy := busy + 1;
      NoDupSplit(active, passive);
      NoDupSplit([worker], active + passive);
      assert [worker] + active + passive == [worker] + (active + passive);
      active := [worker] + active;
      worker.impudence := Active;
      ghost var a, p := active, passive;
      RebalancedKeeps(a, p, sleeping);
      RebalanceUnsafe();
    }

    method Release(worker: Worker)
      requires Valid() && (worker in active || worker in passive)
      modifies `active, `passive, `busy, active, passive
      ensures Valid()
      ensures (active, passive) == Rebalanced(Without(old(active), worker), Without(old(passive), worker))
      ensures busy == old(busy) - 1
    {
      StaysOut(active, passive, worker, sleeping);
      Unlink(worker);
      busy := busy - 1;
      ghost var a, p := active, passive;
      RebalancedKeeps(a, p, sleeping);
      RebalanceUnsafe();
    }

    /** Intrusive unlink: the node leaves whichever list it is in. */
    method Unlink(worker: Worker)
      requires NoDup(active + passive) && FlagsAgree() && (worker in active || worker in passive)
      modifies `active, `passive
      ensures active == Without(old(active), worker) && passive == Without(old(passive), worker)
      ensures NoDup(active + passive) && FlagsAgree()
      ensures |active| + |passive| == old(|active| + |passive|) - 1
    {
      NoDupSplit(active, passive);
      WithoutContents(active, worker);
      WithoutContents(passive, worker);
      NoDupSplit(Without(active, worker), Without(passive, worker));
      var a := Filter(active, worker);
      var p := Filter(passive, worker);
      active, passive := a, p;
    }

    method Filter(list: seq<Worker>, worker: Worker) returns (rest: seq<Worker>)
      ensures rest == Without(list, worker)
    {
      rest := [];
      for i := |list| downto 0
        invariant rest == Without(list[i..], worker)
      {
        assert list[i..] == [list[i]] + list[i + 1..];
        if list[i] != worker {
          rest := [list[i]] + rest;
        }
      }
    }

    /** TryParkMe up to the wait: with permission the worker leaves its list and the idle count and goes to
        sleep in one section; without it nothing changes. */
    method TryParkMe(worker: Worker) returns (parked: bool)
      requires Valid() && (worker in active || worker in passive)
      modifies `active, `passive, `busy, `sleeping
      ensures Valid()
      ensures parked <==> permission == Allowed
      ensures parked ==>
                && active == Without(old(active), worker) && passive == Without(old(passive), worker)
                && busy == old(busy) - 1 && sleeping == old(sleeping) + {worker}
      ensures !parked ==> unchanged(`active) && unchanged(`passive) && unchanged(`busy) && unchanged(`sleeping)
    {
      parked := permission == Allowed;
      if parked {
        WithoutContents(active, worker);
        WithoutContents(passive, worker);
        Unlink(worker);
        busy := busy - 1;
        sleeping := sleeping + {worker};
      }
    }

    /** Waking one sleeper, if there is one; which one is the condition variable's choice. */
    method NotifyOne() returns (woken: Option<Worker>)
      modifies `sleeping
      ensures woken.None? <==> old(sleeping) == {}
      ensures woken.Some? ==> woken.value in old(sleeping) && sleeping == old(sleeping) - {woken.value}
      ensures woken.None? ==> sleeping == {}
    {
      if sleeping == {} {
        woken := None;
      } else {
        var w :| w in sleeping;
        sleeping := sleeping - {w};
        woken := Some(w);
      }
    }

    method ProhibitParking() returns (woken: Option<Worker>)
      requires Valid()
      modifies `permission, `sleeping
      ensures Valid()
      ensures permission == if old(permission) == PermanentlyProhibited then PermanentlyProhibited else TemporaryProhibited
      ensures woken.None? <==> old(sleeping) == {}
      ensures woken.Some? ==> woken.value in old(sleeping) && sleeping == old(sleeping) - {woken.value}
      ensures woken.None? ==> sleeping == {}
    {
      if permission != PermanentlyProhibited {
        permission := TemporaryProhibited;
      }
      woken := NotifyOne();
    }

    method AllowParking()
      requires Valid()
      modifies `permission
      ensures Valid()
      ensures permission == if old(permission) == PermanentlyProhibited then PermanentlyProhibited else Allowed
    {
      if permission != PermanentlyProhibited {
        permission := Allowed;
      }
    }

    /** Steps through active and then passive to the chosen place; only a division by zero could go wrong. */
    method GiveVictim(seed: nat) returns (victim: Worker)
      requires |active| + |passive| > 0
      ensures victim == (active + passive)[seed % (|active| + |passive|)]
    {
      var place := seed % (|active| + |passive|);
      if place < |active| {
        victim := active[place];
      } else {
        victim := passive[place - |active|];
      }
    }
  }
}
