/** Exactly when the replicas can order the flush although some batches are uncounted. */
module FilterDeliveries {
  import opened Prelude
  import opened EofCoordination
  import opened Filters
  import opened Sums
  import opened FilterCluster
  import opened FilterRuns
  import opened FilterTheorems
  import opened FilterProgress
  import opened FilterCompletion

  // ---------- what can be counted ----------

  /** The replicas among the first `n` that the batch may be delivered to. */
  function Takers(may: Queues, i: nat, n: nat): set<nat> {
    set r | r in Ids(n) && may(r, i)
  }

  /** Transactions of each batch outside `left`, as often as one of `n` replicas may count them. */
  function Weights(s: Setup, may: Queues, left: set<nat>, n: nat): seq<nat> {
    seq(|s.upstream|, i requires 0 <= i < |s.upstream| =>
      if i in left then 0 else |Takers(may, i, n)| * |s.upstream[i]|)
  }

  function Countable(s: Setup, may: Queues, left: set<nat>): nat {
    Total(Weights(s, may, left, s.n))
  }

  /** Batches outside `left` that the replica may be given. */
  function Share(s: Setup, may: Queues, left: set<nat>, r: nat): set<nat> {
    set i | i in Ids(|s.upstream|) && may(r, i) && i !in left
  }

  function Shares(s: Setup, may: Queues, left: set<nat>, n: nat): seq<nat> {
    seq(n, r requires 0 <= r < n => SumOver(Sizes(s), Share(s, may, left, r)))
  }

  lemma TotalSnoc(v: seq<nat>, x: nat)
    ensures Total(v + [x]) == Total(v) + x
  {
    assert (v + [x])[..|v|] == v;
    SumEqual(v, v, Ids(|v| + 1), Ids(|v|));
  }

  lemma TakersMore(may: Queues, i: nat, n: nat)
    ensures |Takers(may, i, n + 1)| == |Takers(may, i, n)| + if may(n, i) then 1 else 0
  {
    var takers := Takers(may, i, n);
    assert Takers(may, i, n + 1) == if may(n, i) then takers + {n} else takers;
  }

  lemma OnceMore(n: nat, size: nat)
    ensures (n + 1) * size == n * size + size
  {
  }

  /** One replica more. */
  lemma WeightsMore(s: Setup, may: Queues, left: set<nat>, n: nat)
    ensures Total(Weights(s, may, left, n + 1)) ==
            Total(Weights(s, may, left, n)) + SumOver(Sizes(s), Share(s, may, left, n))
  {
    hide SumOver, Takers;
    var was, more := Weights(s, may, left, n), Weights(s, may, left, n + 1);
    var share, all := Share(s, may, left, n), Ids(|s.upstream|);
    var own := seq(|s.upstream|, i requires 0 <= i < |s.upstream| => if i in share then |s.upstream[i]| else 0);
    forall i | 0 <= i < |s.upstream| ensures more[i] == was[i] + own[i] {
      TakersMore(may, i, n);
      OnceMore(|Takers(may, i, n)|, |s.upstream[i]|);
    }
    hide Weights, Share;
    SumPlus(was, own, more, all);
    SumEqual(own, Sizes(s), all, share);
  }

  /** Counted by batches or by replicas, the sum is the same. */
  lemma {:induction false} ByReplicas(s: Setup, may: Queues, left: set<nat>, n: nat)
    ensures Total(Weights(s, may, left, n)) == Total(Shares(s, may, left, n))
  {
    hide SumOver, Weights, Share, Total;
    if n == 0 {
      NoReplicas(s, may, left);
    } else {
      ByReplicas(s, may, left, n - 1);
      WeightsMore(s, may, left, n - 1);
      var init, last := Shares(s, may, left, n - 1), SumOver(Sizes(s), Share(s, may, left, n - 1));
      assert Shares(s, may, left, n) == init + [last];
      TotalSnoc(init, last);
    }
  }

  lemma NoReplicas(s: Setup, may: Queues, left: set<nat>)
    ensures Total(Weights(s, may, left, 0)) == 0 == Total(Shares(s, may, left, 0))
  {
    hide SumOver;
    assert forall i :: Takers(may, i, 0) == {};
    SumZero(Weights(s, may, left, 0), Ids(|s.upstream|));
    SumZero(Shares(s, may, left, 0), Ids(0));
  }

  // ---------- a flush order without the batches of `left` ----------

  ghost predicate FlushOrdered(k: Cluster) {
    exists r, c :: (r, Ctrl(Message(FLUSH_ORDER, c))) in k.net
  }

  ghost predicate Uncounted(k: Cluster, left: set<nat>) {
    forall r, i :: 0 <= r < |k.replicas| && i in k.replicas[r].counted ==> i !in left
  }

  /** The steps are a run within the queues that ends with the flush ordered and `left` uncounted. */
  ghost predicate FlushesWithout(s: Setup, may: Queues, left: set<nat>, steps: seq<Step>) {
    && Within(steps, may) && Reached(s, steps).Some?
    && FlushOrdered(Reached(s, steps).value) && Uncounted(Reached(s, steps).value, left)
  }

  lemma {:induction false} SumWithin(v: seq<nat>, a: set<nat>, b: set<nat>)
    requires a <= b
    ensures SumOver(v, a) <= SumOver(v, b)
  {
    if v != [] {
      SumWithin(v[..|v| - 1], a, b);
    }
  }

  lemma FlushNeedsCountable(s: Setup, may: Queues, left: set<nat>, steps: seq<Step>)
    requires Sensible(s) && FlushesWithout(s, may, left, steps)
    ensures s.total <= Countable(s, may, left)
  {
    hide Reached, SumOver, AcksOk, EofsOk, TallyOk, OpenOk, DrainedOk, Within;
    var k := Reached(s, steps).value;
    RunKeepsInv(s, steps);
    RunCountsWithin(s, steps, may);
    var r0, c :| (r0, Ctrl(Message(FLUSH_ORDER, c))) in k.net;
    assert PeerOk(s, k, Ctrl(Message(FLUSH_ORDER, c)));
    var shares := Shares(s, may, left, s.n);
    forall r | 0 <= r < s.n ensures Evers(s, k)[r] <= shares[r] {
      CountedByReplica(s, k, r, "");
      assert ReplicaOk(s, r, k.replicas[r]);
      SumWithin(Sizes(s), AsSet(k.replicas[r].counted), Share(s, may, left, r));
    }
    hide Evers;
    SumAtMost(Evers(s, k), shares, Ids(s.n));
    ByReplicas(s, may, left, s.n);
  }

  // ---------- the run that counts whatever it may ----------

  lemma WithinMore(steps: seq<Step>, more: seq<Step>, may: Queues)
    requires Within(steps, may) && Within(more, may)
    ensures Within(steps + more, may)
  {
  }

  /** The replica has taken batches and nothing else. */
  ghost predicate Calm(rep: Replica) {
    && rep.fate == OPEN && !rep.view.closed && rep.view.coord == IDLE
    && forall x :: x in rep.seen ==> x.BatchIn? && x.i in rep.counted
  }

  ghost predicate Gathering(s: Setup, k: Cluster) {
    |k.replicas| == s.n && forall r :: 0 <= r < s.n ==> Calm(k.replicas[r])
  }

  lemma CountOne(s: Setup, k: Cluster, r: nat, i: nat)
    requires Gathering(s, k) && r < s.n && i < |s.upstream|
    ensures var k2 := OnBatch(s, k, r, i);
            && Gathering(s, k2) && AsSet(k2.replicas[r].counted) == AsSet(k.replicas[r].counted) + {i}
            && forall q :: 0 <= q < s.n && q != r ==> k2.replicas[q] == k.replicas[q]
  {
    var rep := k.replicas[r];
    assert Calm(rep);
    BatchFrame(s, r, rep, i);
    var next := WithBatch(s, r, rep, i);
    hide DataBusiness, Handled;
    if BatchIn(i) !in rep.seen {
      assert OnBatch(s, k, r, i).replicas == k.replicas[r := next];
      assert next.counted == rep.counted + [i];
    }
  }

  /** What replica `q` has been given when the first `r` replicas have their shares and replica `r` the part of its
      share below `b`. */
  function SoFar(s: Setup, may: Queues, left: set<nat>, q: nat, r: nat, b: nat): set<nat> {
    if q < r then Share(s, may, left, q) else if q == r then Share(s, may, left, q) * Ids(b) else {}
  }

  ghost predicate Gathered(s: Setup, may: Queues, left: set<nat>, k: Cluster, r: nat, b: nat) {
    && Gathering(s, k)
    && forall q :: 0 <= q < s.n ==> AsSet(k.replicas[q].counted) == SoFar(s, may, left, q, r, b)
  }

  lemma GatheredOne(s: Setup, may: Queues, left: set<nat>, k: Cluster, r: nat, b: nat)
    requires r < s.n && b < |s.upstream| && Gathered(s, may, left, k, r, b)
    ensures b in Share(s, may, left, r) ==> Gathered(s, may, left, OnBatch(s, k, r, b), r, b + 1)
    ensures b !in Share(s, may, left, r) ==> Gathered(s, may, left, k, r, b + 1)
  {
    CountOne(s, k, r, b);
    hide OnBatch, Gathering, Share, SoFar, AsSet;
    forall q | 0 <= q < s.n
      ensures SoFar(s, may, left, q, r, b + 1) ==
              SoFar(s, may, left, q, r, b) + if q == r && b in Share(s, may, left, r) then {b} else {}
    {
      SoFarNext(s, may, left, q, r, b);
    }
  }

  lemma SoFarNext(s: Setup, may: Queues, left: set<nat>, q: nat, r: nat, b: nat)
    ensures SoFar(s, may, left, q, r, b + 1) ==
            SoFar(s, may, left, q, r, b) + if q == r && b in Share(s, may, left, r) then {b} else {}
  {
    hide Share;
  }

  lemma NextReplica(s: Setup, may: Queues, left: set<nat>, k: Cluster, r: nat)
    requires Gathered(s, may, left, k, r, |s.upstream|)
    ensures Gathered(s, may, left, k, r + 1, 0)
  {
    hide Gathering;
    forall q ensures SoFar(s, may, left, q, r + 1, 0) == SoFar(s, may, left, q, r, |s.upstream|) {}
  }

  lemma GatheredNothing(s: Setup, may: Queues, left: set<nat>)
    ensures Gathered(s, may, left, Start(s), 0, 0)
  {
    assert forall q :: SoFar(s, may, left, q, 0, 0) == {};
  }

  lemma {:induction false} Gather(s: Setup, may: Queues, left: set<nat>, r: nat, b: nat) returns (steps: seq<Step>)
    requires r <= s.n && b <= |s.upstream| && (r == s.n ==> b == 0)
    ensures Within(steps, may) && Reached(s, steps).Some?
    ensures Gathered(s, may, left, Reached(s, steps).value, r, b)
    decreases r, b
  {
    hide Gathered, OnBatch;
    if b > 0 {
      steps := Gather(s, may, left, r, b - 1);
      var k := Reached(s, steps).value;
      GatheredOne(s, may, left, k, r, b - 1);
      if b - 1 in Share(s, may, left, r) {
        var step := DeliverBatch(r, b - 1);
        assert |k.replicas| == s.n by { GatheredSize(s, may, left, k, r, b - 1); }
        OneMore(s, steps, step);
        WithinMore(steps, [step], may);
        steps := steps + [step];
      }
    } else if r > 0 {
      steps := Gather(s, may, left, r - 1, |s.upstream|);
      NextReplica(s, may, left, Reached(s, steps).value, r - 1);
    } else {
      steps := [];
      GatheredNothing(s, may, left);
    }
  }

  lemma GatheredSize(s: Setup, may: Queues, left: set<nat>, k: Cluster, r: nat, b: nat)
    requires Gathered(s, may, left, k, r, b)
    ensures |k.replicas| == s.n
  {
  }

  // ---------- the end of stream and the answers ----------

  /** The end of stream is announced to all, and the first `q` replicas have answered with what they counted. */
  ghost predicate Answering(s: Setup, was: Cluster, k: Cluster, q: nat) {
    && |was.replicas| == |k.replicas| == s.n > s.leader && ToEach(s, k.net, Announcement(s))
    && (forall r :: 0 <= r < s.n ==>
          && k.replicas[r].counted == was.replicas[r].counted
          && k.replicas[r].fate == was.replicas[r].fate == OPEN && !k.replicas[r].view.closed)
    && (forall r :: q <= r < s.n ==>
          k.replicas[r].view.coord.pending.None? && EofReceivedIn(s.leader) !in k.replicas[r].seen)
    && k.replicas[s.leader].view.coord.expected == Some(s.total) && TallyOf(k.replicas[s.leader].view) == ({}, 0)
    && forall r :: 0 <= r < q < s.n + 1 ==> (s.leader, Ctrl(Answer(r, Report(s, was.replicas[r]), 0))) in k.net
  }

  lemma Announce(s: Setup, k: Cluster)
    requires Gathering(s, k) && s.n > 1 && s.leader < s.n
    ensures Answering(s, k, OnUpstream(s, k), 0)
  {
    hide AddBatches, ToAll;
    assert Calm(k.replicas[s.leader]);
    var next := OnUpstream(s, k).replicas[s.leader];
    ToAllReaches(s, k, s.leader, next, Announcement(s).message);
    forall r | 0 <= r < s.n ensures Calm(k.replicas[r]) {}
  }

  lemma OneAnswers(s: Setup, was: Cluster, k: Cluster, q: nat)
    requires Shaped(s, k) && Answering(s, was, k, q) && q < s.n
    ensures Answering(s, was, OnAnnounced(s, k, q, Announcement(s).message.control, 0), q + 1)
  {
    CountIsProcessed(s, k, q);
    hide Txs, AddBatches, ReplicaOk;
    var rep := k.replicas[q];
    var answer := (s.leader, Ctrl(Answer(q, rep.view.processed, 0)));
    assert answer in [answer];
  }

  lemma {:induction false} Ask(s: Setup, may: Queues, before: seq<Step>, q: nat) returns (steps: seq<Step>)
    requires Within(before, may) && Reached(s, before).Some? && Gathering(s, Reached(s, before).value)
    requires s.n > 1 && s.leader < s.n && q <= s.n
    ensures Within(steps, may) && Reached(s, steps).Some?
    ensures Answering(s, Reached(s, before).value, Reached(s, steps).value, q)
  {
    hide Answering, OnUpstream, OnAnnounced, Reached;
    var was := Reached(s, before).value;
    if q == 0 {
      Announce(s, was);
      OneMore(s, before, DeliverUpstreamEof);
      WithinMore(before, [DeliverUpstreamEof], may);
      steps := before + [DeliverUpstreamEof];
    } else {
      steps := Ask(s, may, before, q - 1);
      RunKeepsInv(s, steps);
      var k, step := Reached(s, steps).value, DeliverEofReceived(q - 1, Announcement(s).message.control, 0);
      OneAnswers(s, was, k, q - 1);
      CanAnswer(s, was, k, q - 1);
      OneMore(s, steps, step);
      WithinMore(steps, [step], may);
      steps := steps + [step];
    }
  }

  lemma CanAnswer(s: Setup, was: Cluster, k: Cluster, q: nat)
    requires Answering(s, was, k, q) && q < s.n
    ensures Enabled(s, k, DeliverEofReceived(q, Announcement(s).message.control, 0))
  {
  }

  lemma GatheredCounts(s: Setup, may: Queues, left: set<nat>, k: Cluster)
    requires Shaped(s, k) && Gathered(s, may, left, k, s.n, 0)
    ensures Reports(s, k) == Shares(s, may, left, s.n) && Uncounted(k, left)
  {
    hide ReplicaOk, SumOver, Txs;
    forall r | 0 <= r < s.n
      ensures Reports(s, k)[r] == Shares(s, may, left, s.n)[r] && forall i :: i in k.replicas[r].counted ==> i !in left
    {
      CountedByReplica(s, k, r, "");
      assert forall i :: i in k.replicas[r].counted ==> i in AsSet(k.replicas[r].counted);
    }
  }

  lemma CountableFlushes(s: Setup, may: Queues, left: set<nat>) returns (steps: seq<Step>)
    requires Sensible(s) && s.n > 1 && s.total <= Countable(s, may, left)
    ensures FlushesWithout(s, may, left, steps)
  {
    hide Reached, Gathered, Total, Shares, Weights, Gathering;
    var gather := Gather(s, may, left, s.n, 0);
    var was := Reached(s, gather).value;
    RunKeepsInv(s, gather);
    GatheredCounts(s, may, left, was);
    ByReplicas(s, may, left, s.n);
    GatheredIsCalm(s, may, left, was);
    var ask := Ask(s, may, gather, s.n);
    var k := Reached(s, ask).value;
    assert Reports(s, k) == Reports(s, was);
    TakeAll(s, ask, Reports(s, k), s.n);
    var answers := Answers(s, Reports(s, k));
    assert answers[..s.n] == answers;
    WithinMore(ask, answers, may);
    steps := ask + answers;
    assert (0, Order(s)) in Everyone(s.n, Order(s));
  }

  lemma GatheredIsCalm(s: Setup, may: Queues, left: set<nat>, k: Cluster)
    requires Gathered(s, may, left, k, s.n, 0)
    ensures Gathering(s, k)
  {
  }

  /** A run can order the flush with the batches of `left` uncounted if and only if the other batches, counted once by
      each replica they may be delivered to, reach the announced total. */
  lemma FlushWithoutExactly(s: Setup, may: Queues, left: set<nat>)
    requires Sensible(s) && s.n > 1
    ensures (exists steps :: FlushesWithout(s, may, left, steps)) <==> s.total <= Countable(s, may, left)
  {
    hide FlushesWithout, Countable;
    if steps :| FlushesWithout(s, may, left, steps) {
      FlushNeedsCountable(s, may, left, steps);
    }
    if s.total <= Countable(s, may, left) {
      var steps := CountableFlushes(s, may, left);
    }
  }

  /** No flush order comes before every transaction is counted. */
  ghost predicate FlushesLast(s: Setup, may: Queues) {
    forall steps :: Within(steps, may) && Reached(s, steps).Some? && FlushOrdered(Reached(s, steps).value) ==>
                      AllCounted(s, Reached(s, steps).value)
  }

  /** That holds of every run exactly when no batch with transactions can be made up for by counting others again. */
  lemma FlushesLastExactly(s: Setup, may: Queues)
    requires Sensible(s) && s.n > 1
    ensures FlushesLast(s, may) <==>
            forall i :: 0 <= i < |s.upstream| && s.upstream[i] != [] ==> Countable(s, may, {i}) < s.total
  {
    hide Reached, Within, Countable, FlushOrdered;
    if FlushesLast(s, may) {
      forall i | 0 <= i < |s.upstream| && s.upstream[i] != []
        ensures Countable(s, may, {i}) < s.total
      {
        FlushWithoutExactly(s, may, {i});
      }
    } else {
      var steps :| Within(steps, may) && Reached(s, steps).Some? && FlushOrdered(Reached(s, steps).value) &&
                   !AllCounted(s, Reached(s, steps).value);
      var k := Reached(s, steps).value;
      var i :| 0 <= i < |s.upstream| && s.upstream[i] != [] &&
               !exists r :: 0 <= r < |k.replicas| && i in k.replicas[r].counted;
      assert FlushesWithout(s, may, {i}, steps);
      FlushWithoutExactly(s, may, {i});
    }
  }
}
