/** Personal queues against one shared input queue: with the second, a batch redelivered to another replica can let the
    end of stream through before everything has been counted. */
module FilterSharedQueue {
  import opened BatchBuffers
  import opened EofCoordination
  import opened Filters
  import opened Sums
  import opened FilterCluster
  import opened FilterRuns
  import opened FilterTheorems
  import opened FilterDeliveries

  /** One queue that all replicas take their batches from. */
  const ANYWHERE: Queues := (r: nat, i: nat) => true

  lemma {:induction false} SumTimes(v: seq<nat>, w: seq<nat>, n: nat, who: set<nat>)
    requires |v| == |w| && forall i :: 0 <= i < |v| ==> w[i] == n * v[i]
    ensures SumOver(w, who) == n * SumOver(v, who)
  {
    if v != [] {
      SumTimes(v[..|v| - 1], w[..|w| - 1], n, who);
    }
  }

  lemma WeightAnywhere(s: Setup, i: nat, j: nat)
    requires j < |s.upstream|
    ensures var weights := Weights(s, ANYWHERE, {i}, s.n);
            |weights| == |s.upstream| && weights[j] == s.n * if j == i then 0 else |s.upstream[j]|
  {
    assert Takers(ANYWHERE, j, s.n) == Ids(s.n);
  }

  lemma AllTake(s: Setup, i: nat)
    requires i < |s.upstream|
    ensures Countable(s, ANYWHERE, {i}) == s.n * (Total(Sizes(s)) - |s.upstream[i]|)
  {
    hide SumOver, Weights;
    var weights, all := Weights(s, ANYWHERE, {i}, s.n), Ids(|s.upstream|);
    var others := Sizes(s)[i := 0];
    WeightAnywhere(s, i, i);
    forall j | 0 <= j < |s.upstream| ensures weights[j] == s.n * others[j] {
      WeightAnywhere(s, i, j);
    }
    SumTimes(others, weights, s.n, all);
    SumEqual(others, Sizes(s), all, all - {i});
    SumInsert(Sizes(s), all - {i}, i);
    assert all - {i} + {i} == all;
  }

  /** With one shared queue and an honest total no flush order comes early in any run if and only if, for every batch
      with transactions, all replicas counting all other batches stay below the total. */
  lemma SharedQueueExactly(s: Setup)
    requires Sensible(s) && s.n > 1 && s.total == Total(Sizes(s))
    ensures FlushesLast(s, ANYWHERE) <==>
            forall i :: 0 <= i < |s.upstream| && s.upstream[i] != [] ==> s.n * (s.total - |s.upstream[i]|) < s.total
  {
    hide FlushesLast, Countable, Total;
    FlushesLastExactly(s, ANYWHERE);
    forall i | 0 <= i < |s.upstream|
      ensures Countable(s, ANYWHERE, {i}) == s.n * (s.total - |s.upstream[i]|)
    {
      AllTake(s, i);
    }
  }

  /** With personal queues none ever does. */
  lemma PersonalQueuesFlushLast(s: Setup, home: nat -> nat)
    requires Sensible(s) && s.total == Total(Sizes(s))
    ensures FlushesLast(s, Homes(home))
  {
    hide Reached, Within, AllCounted, OnceOnly, Missing, Again;
    forall steps | Within(steps, Homes(home)) && Reached(s, steps).Some? && FlushOrdered(Reached(s, steps).value)
      ensures AllCounted(s, Reached(s, steps).value)
    {
      var r, c :| (r, Ctrl(Message(FLUSH_ORDER, c))) in Reached(s, steps).value.net;
      PersonalQueuesCountOnce(s, steps, home);
      FlushOrderComesLast(s, steps, r, c);
    }
  }

  const TX := Transaction("", "", "", "", "", 0.0, "", "", 1)

  const NOWHERE := Routing(_ => [], _ => [], [], (d: string) => d)

  /** Two replicas, two batches of one transaction each, and an honest total. */
  const SHARED := Setup(2, Limits(1, 1), NOWHERE, 0, [[TX], [TX]], 0, 2)

  /** Both replicas count the first batch, so the flush is ordered although nobody has counted the second. */
  lemma SharedQueueMissesABatch() returns (steps: seq<Step>)
    ensures SHARED.total == Total(Sizes(SHARED)) && FlushesWithout(SHARED, ANYWHERE, {1}, steps)
    ensures !AllCounted(SHARED, Reached(SHARED, steps).value)
  {
    hide Reached, Countable, FlushOrdered, Within;
    TotalIsTwo();
    AllTake(SHARED, 1);
    steps := CountableFlushes(SHARED, ANYWHERE, {1});
    assert SHARED.upstream[1] != [];
  }

  lemma TotalIsTwo()
    ensures Total(Sizes(SHARED)) == 2
  {
    var v := Sizes(SHARED);
    assert v == [1] + [1] && [1] == [] + [1];
    TotalSnoc([1], 1);
    TotalSnoc([], 1);
  }
}
