/** Weights added up over a sequence. */
module Sums {

  ghost function Total<T>(s: seq<T>, weight: T -> nat): nat {
    if s == [] then 0 else weight(s[0]) + Total(s[1..], weight)
  }

  lemma {:induction false} TotalUpdate<T>(s: seq<T>, k: nat, x: T, weight: T -> nat)
    requires k < |s|
    ensures Total(s[k := x], weight) + weight(s[k]) == Total(s, weight) + weight(x)
  {
    if k == 0 {
      assert s[k := x][1..] == s[1..];
    } else {
      assert s[k := x][1..] == s[1..][k - 1 := x];
      TotalUpdate(s[1..], k - 1, x, weight);
    }
  }

  lemma {:induction false} TotalOfEqual<T>(s: seq<T>, x: T, weight: T -> nat)
    requires forall k :: 0 <= k < |s| ==> s[k] == x
    ensures Total(s, weight) == weight(x) * |s|
  {
    if s != [] {
      TotalOfEqual(s[1..], x, weight);
    }
  }

  /** If nobody counts for more than one and the total is the length, everybody counts. */
  lemma {:induction false} TotalFull<T>(s: seq<T>, weight: T -> nat)
    requires forall k :: 0 <= k < |s| ==> weight(s[k]) <= 1
    ensures Total(s, weight) <= |s|
    ensures Total(s, weight) == |s| ==> forall k :: 0 <= k < |s| ==> weight(s[k]) == 1
    ensures (forall k :: 0 <= k < |s| ==> weight(s[k]) == 1) ==> Total(s, weight) == |s|
  {
    if s != [] {
      TotalFull(s[1..], weight);
      assert s == [s[0]] + s[1..];
    }
  }
}
