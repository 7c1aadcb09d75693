/** Sums of a vector over a set of its indices. */
module Sums {
  function SumOver(v: seq<nat>, who: set<nat>): nat {
    if v == [] then 0
    else SumOver(v[..|v| - 1], who) + if |v| - 1 in who then v[|v| - 1] else 0
  }

  /** {0, …, n-1} */
  function Ids(n: nat): (s: set<nat>)
    ensures |s| == n && forall i :: i in s <==> 0 <= i < n
  {
    if n == 0 then {} else Ids(n - 1) + {n - 1}
  }

  function Total(v: seq<nat>): nat { SumOver(v, Ids(|v|)) }

  lemma {:induction false} SumEqual(v: seq<nat>, w: seq<nat>, a: set<nat>, b: set<nat>)
    requires |v| == |w|
    requires forall i :: 0 <= i < |v| ==> (if i in a then v[i] else 0) == (if i in b then w[i] else 0)
    ensures SumOver(v, a) == SumOver(w, b)
  {
    if v != [] {
      SumEqual(v[..|v| - 1], w[..|w| - 1], a, b);
    }
  }

  lemma {:induction false} SumAtMost(v: seq<nat>, w: seq<nat>, who: set<nat>)
    requires |v| == |w| && forall i :: 0 <= i < |v| && i in who ==> v[i] <= w[i]
    ensures SumOver(v, who) <= SumOver(w, who)
  {
    if v != [] {
      SumAtMost(v[..|v| - 1], w[..|w| - 1], who);
    }
  }

  lemma {:induction false} SumUnion(v: seq<nat>, a: set<nat>, b: set<nat>)
    requires a !! b
    ensures SumOver(v, a + b) == SumOver(v, a) + SumOver(v, b)
  {
    if v != [] {
      SumUnion(v[..|v| - 1], a, b);
    }
  }

  lemma {:induction false} SumOne(v: seq<nat>, i: nat)
    ensures SumOver(v, {i}) == if i < |v| then v[i] else 0
  {
    if v != [] {
      SumOne(v[..|v| - 1], i);
    }
  }

  lemma SumInsert(v: seq<nat>, who: set<nat>, i: nat)
    requires i !in who && i < |v|
    ensures SumOver(v, who + {i}) == SumOver(v, who) + v[i]
  {
    SumUnion(v, who, {i});
    SumOne(v, i);
  }

  /** A set of `n - 1` ids other than `x` holds all of them. */
  lemma AllOthers(who: set<nat>, n: nat, x: nat)
    requires x < n && who <= Ids(n) - {x} && |who| >= n - 1
    ensures who == Ids(n) - {x}
  {
    SameSize(who, Ids(n) - {x});
  }

  lemma SameSize(a: set<nat>, b: set<nat>)
    requires a <= b && |a| >= |b|
    ensures a == b
  {
    assert |b - a| == |b| - |a|;
  }

  lemma {:induction false} SumBump(v: seq<nat>, w: seq<nat>, who: set<nat>, j: nat)
    requires |v| == |w| && j < |v| && w == v[j := v[j] + 1]
    ensures SumOver(w, who) == SumOver(v, who) + if j in who then 1 else 0
  {
    var n := |v| - 1;
    if j == n {
      SumEqual(v[..n], w[..n], who, who);
    } else {
      SumBump(v[..n], w[..n], who, j);
    }
  }

  lemma {:induction false} SumPlus(u: seq<nat>, v: seq<nat>, w: seq<nat>, who: set<nat>)
    requires |u| == |v| == |w| && forall j :: 0 <= j < |u| ==> w[j] == u[j] + v[j]
    ensures SumOver(w, who) == SumOver(u, who) + SumOver(v, who)
  {
    if u != [] {
      SumPlus(u[..|u| - 1], v[..|v| - 1], w[..|w| - 1], who);
    }
  }

  lemma {:induction false} SumMeet(v: seq<nat>, a: set<nat>, b: set<nat>)
    ensures SumOver(v, a) + SumOver(v, b) == SumOver(v, a + b) + SumOver(v, a * b)
  {
    if v != [] {
      SumMeet(v[..|v| - 1], a, b);
    }
  }

  lemma {:induction false} SumZero(v: seq<nat>, who: set<nat>)
    ensures SumOver(v, who) == 0 <==> forall i :: i in who && i < |v| ==> v[i] == 0
  {
    if v != [] {
      var init := v[..|v| - 1];
      SumZero(init, who);
      assert forall i :: 0 <= i < |init| ==> v[i] == init[i];
    }
  }
}
