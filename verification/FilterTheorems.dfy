/** End of stream in the filter group: nothing is closed early, nothing is lost, totals are exact. */
module FilterTheorems {
  import opened Prelude
  import opened EofCoordination
  import opened FilterStates
  import opened Filters
  import opened Sums
  import opened FilterCluster
  import opened FilterRuns

  /** Sizes of the upstream batches. */
  function Sizes(s: Setup): seq<nat> {
    seq(|s.upstream|, i requires 0 <= i < |s.upstream| => |s.upstream[i]|)
  }

  /** Payloads each upstream batch sends to logical output `l`. */
  function Hitting(s: Setup, l: string): seq<nat> {
    seq(|s.upstream|, i requires 0 <= i < |s.upstream| => RoutedCount(s.routing, s.upstream[i], l))
  }

  function AsSet(counted: seq<nat>): set<nat> { set i | i in counted }

  lemma {:induction false} CountedSums(s: Setup, counted: seq<nat>, l: string)
    requires forall a, b :: 0 <= a < b < |counted| ==> counted[a] != counted[b]
    requires forall a :: 0 <= a < |counted| ==> counted[a] < |s.upstream|
    ensures |Txs(s, counted)| == SumOver(Sizes(s), AsSet(counted))
    ensures RoutedCount(s.routing, Txs(s, counted), l) == SumOver(Hitting(s, l), AsSet(counted))
  {
    if counted == [] {
      assert AsSet(counted) == {};
      NoneSum(Sizes(s));
      NoneSum(Hitting(s, l));
    } else {
      var init, last := counted[..|counted| - 1], counted[|counted| - 1];
      CountedSums(s, init, l);
      assert AsSet(counted) == AsSet(init) + {last};
      SumInsert(Sizes(s), AsSet(init), last);
      SumInsert(Hitting(s, l), AsSet(init), last);
      RoutedCountPlus(s.routing, Txs(s, init), s.upstream[last], l);
    }
  }

  /** Batches counted by the first `j` replicas. */
  function CountedBy(k: Cluster, j: nat): set<nat>
    requires j <= |k.replicas|
  {
    if j == 0 then {} else CountedBy(k, j - 1) + AsSet(k.replicas[j - 1].counted)
  }

  lemma {:induction false} CountedByMeaning(k: Cluster, j: nat, i: nat)
    requires j <= |k.replicas|
    ensures i in CountedBy(k, j) <==> exists r :: 0 <= r < j && i in k.replicas[r].counted
  {
    if j > 0 {
      CountedByMeaning(k, j - 1, i);
    }
  }

  /** Transactions that the first `j` replicas have counted although an earlier one had. */
  function Again(s: Setup, k: Cluster, j: nat): nat
    requires j <= |k.replicas|
  {
    if j == 0 then 0
    else Again(s, k, j - 1) + SumOver(Sizes(s), CountedBy(k, j - 1) * AsSet(k.replicas[j - 1].counted))
  }

  /** No batch with transactions in it has been counted by two replicas. */
  ghost predicate OnceOnly(s: Setup, k: Cluster) {
    forall q, r, i :: 0 <= q < r < |k.replicas| && i in k.replicas[q].counted && i in k.replicas[r].counted ==>
      BatchAt(s, i) == []
  }

  /** What two replicas have both counted, of the first `j`. */
  ghost predicate OnceAmong(s: Setup, k: Cluster, j: nat)
    requires j <= |k.replicas|
  {
    forall q, r, i :: 0 <= q < r < j && i in k.replicas[q].counted && i in k.replicas[r].counted ==>
      BatchAt(s, i) == []
  }

  lemma OverlapEmpty(s: Setup, k: Cluster, j: nat)
    requires Shaped(s, k) && j < s.n
    ensures var both := CountedBy(k, j) * AsSet(k.replicas[j].counted);
            SumOver(Sizes(s), both) == 0 <==>
            forall q, i :: 0 <= q < j && i in k.replicas[q].counted && i in k.replicas[j].counted ==>
              BatchAt(s, i) == []
  {
    hide ReplicaOk, SumOver;
    var both := CountedBy(k, j) * AsSet(k.replicas[j].counted);
    SumZero(Sizes(s), both);
    assert forall i :: i in both && i < |s.upstream| ==> Sizes(s)[i] == |BatchAt(s, i)|;
    forall i | i in k.replicas[j].counted
      ensures i in both <==> exists q :: 0 <= q < j && i in k.replicas[q].counted
    {
      CountedByMeaning(k, j, i);
    }
    forall q, i | 0 <= q < j && i in k.replicas[q].counted && i in k.replicas[j].counted
      ensures i in both
    {
      CountedByMeaning(k, j, i);
    }
    assert forall i :: i in both ==> i in k.replicas[j].counted;
  }

  /** Nothing is counted again exactly when no batch with transactions is counted by two replicas. */
  lemma {:induction false} NoneAgain(s: Setup, k: Cluster, j: nat)
    requires Shaped(s, k) && j <= s.n
    ensures Again(s, k, j) == 0 <==> OnceAmong(s, k, j)
  {
    hide ReplicaOk, SumOver;
    if j > 0 {
      NoneAgain(s, k, j - 1);
      OverlapEmpty(s, k, j - 1);
    }
  }

  lemma CountedByReplica(s: Setup, k: Cluster, j: nat, l: string)
    requires Shaped(s, k) && j < s.n
    ensures var counted := AsSet(k.replicas[j].counted);
            Evers(s, k)[j] == SumOver(Sizes(s), counted) && Routeds(s, k, l)[j] == SumOver(Hitting(s, l), counted)
  {
    hide OpenOk, DrainedOk, Txs, RoutedCount, SumOver, LeadsOk;
    var counted := k.replicas[j].counted;
    assert ReplicaOk(s, j, k.replicas[j]);
    assert forall a :: 0 <= a < |counted| ==> counted[a] in counted;
    CountedSums(s, counted, l);
  }

  /** Summing over replicas is summing over the batches they counted, and again over those counted again. */
  lemma {:induction false} CountedInAll(s: Setup, k: Cluster, j: nat)
    requires Shaped(s, k) && j <= s.n
    ensures SumOver(Evers(s, k), Ids(j)) == SumOver(Sizes(s), CountedBy(k, j)) + Again(s, k, j)
  {
    hide ReplicaOk, Evers, SumOver, AsSet, Sizes;
    if j == 0 {
      NoneSum(Evers(s, k));
      NoneSum(Sizes(s));
    } else {
      CountedInAll(s, k, j - 1);
      CountedByReplica(s, k, j - 1, "");
      SumMeet(Sizes(s), CountedBy(k, j - 1), AsSet(k.replicas[j - 1].counted));
      SumInsert(Evers(s, k), Ids(j - 1), j - 1);
    }
  }

  lemma OverlapRoutesNothing(s: Setup, k: Cluster, j: nat, l: string)
    requires Shaped(s, k) && j < s.n && OnceAmong(s, k, j + 1)
    ensures SumOver(Hitting(s, l), CountedBy(k, j) * AsSet(k.replicas[j].counted)) == 0
  {
    hide ReplicaOk, SumOver;
    var both := CountedBy(k, j) * AsSet(k.replicas[j].counted);
    SumZero(Hitting(s, l), both);
    forall i | i in both && i < |s.upstream| ensures Hitting(s, l)[i] == 0 {
      CountedByMeaning(k, j, i);
      assert BatchAt(s, i) == [];
    }
  }

  /** The same for what is routed, when nothing is counted again. */
  lemma {:induction false} RoutedOnce(s: Setup, k: Cluster, j: nat, l: string)
    requires Shaped(s, k) && j <= s.n && OnceAmong(s, k, j)
    ensures SumOver(Routeds(s, k, l), Ids(j)) == SumOver(Hitting(s, l), CountedBy(k, j))
  {
    hide ReplicaOk, Routeds, SumOver, AsSet, Hitting;
    if j == 0 {
      NoneSum(Routeds(s, k, l));
      NoneSum(Hitting(s, l));
    } else {
      RoutedOnce(s, k, j - 1, l);
      CountedByReplica(s, k, j - 1, l);
      OverlapRoutesNothing(s, k, j - 1, l);
      SumMeet(Hitting(s, l), CountedBy(k, j - 1), AsSet(k.replicas[j - 1].counted));
      SumInsert(Routeds(s, k, l), Ids(j - 1), j - 1);
    }
  }

  /** Every batch with transactions in it has been counted by some replica. */
  ghost predicate AllCounted(s: Setup, k: Cluster) {
    forall i :: 0 <= i < |s.upstream| && s.upstream[i] != [] ==>
      exists r :: 0 <= r < |k.replicas| && i in k.replicas[r].counted
  }

  /** Transactions of batches that no replica has counted. */
  function Missing(s: Setup, k: Cluster): nat {
    SumOver(Sizes(s), Ids(|s.upstream|) - CountedBy(k, |k.replicas|))
  }

  lemma NothingMissing(s: Setup, k: Cluster)
    ensures Missing(s, k) == 0 <==> AllCounted(s, k)
  {
    hide SumOver;
    var left := Ids(|s.upstream|) - CountedBy(k, |k.replicas|);
    SumZero(Sizes(s), left);
    if Missing(s, k) == 0 {
      forall i | 0 <= i < |s.upstream| && s.upstream[i] != []
        ensures exists r :: 0 <= r < |k.replicas| && i in k.replicas[r].counted
      {
        assert Sizes(s)[i] > 0 && i !in left;
        CountedByMeaning(k, |k.replicas|, i);
      }
    }
    if AllCounted(s, k) {
      forall i | i in left ensures Sizes(s)[i] == 0 {
        CountedByMeaning(k, |k.replicas|, i);
      }
    }
  }

  /** The replicas together have reached the total: what is missing was made up by counting again. */
  lemma MissingIsCountedAgain(s: Setup, k: Cluster)
    requires Shaped(s, k) && s.total == Total(Sizes(s)) && s.total <= Total(Evers(s, k))
    ensures Missing(s, k) <= Again(s, k, s.n)
  {
    hide ReplicaOk, SumOver, Evers;
    CountedInAll(s, k, s.n);
    var all, counted := Ids(|s.upstream|), CountedBy(k, s.n);
    SumUnion(Sizes(s), all - counted, counted);
    SumEqual(Sizes(s), Sizes(s), (all - counted) + counted, all);
    assert Total(Evers(s, k)) == SumOver(Evers(s, k), Ids(s.n)) && Total(Sizes(s)) == SumOver(Sizes(s), all);
  }

  lemma ReachedMeansCounted(s: Setup, k: Cluster)
    requires Shaped(s, k) && s.total == Total(Sizes(s)) && s.total <= Total(Evers(s, k)) && OnceOnly(s, k)
    ensures AllCounted(s, k)
  {
    hide ReplicaOk, SumOver, Evers, Missing, Again;
    MissingIsCountedAgain(s, k);
    NoneAgain(s, k, s.n);
    NothingMissing(s, k);
  }

  /** When FLUSH_ORDER is broadcast, the upstream transactions nobody has counted are at most as many as were counted
      again; so if no batch was counted by two replicas, every upstream transaction has been counted. */
  lemma FlushOrderComesLast(s: Setup, steps: seq<Step>, r: nat, c: Control)
    requires Sensible(s) && Reached(s, steps).Some? && s.total == Total(Sizes(s))
    requires (r, Ctrl(Message(FLUSH_ORDER, c))) in Reached(s, steps).value.net
    ensures var k := Reached(s, steps).value;
            && |k.replicas| == s.n && Missing(s, k) <= Again(s, k, s.n)
            && (Again(s, k, s.n) == 0 <==> OnceOnly(s, k))
            && (OnceOnly(s, k) ==> AllCounted(s, k))
  {
    hide ReplicaOk, Reached, SumOver, AllCounted, AcksOk, EofsOk, TallyOk, Evers;
    var k := Reached(s, steps).value;
    RunKeepsInv(s, steps);
    assert PeerOk(s, k, Ctrl(Message(FLUSH_ORDER, c)));
    MissingIsCountedAgain(s, k);
    NoneAgain(s, k, s.n);
    if OnceOnly(s, k) { ReachedMeansCounted(s, k); }
  }

  /** So a replica of a group closes a client that was not aborted there only after that. */
  lemma ClosesLast(s: Setup, steps: seq<Step>, r: nat)
    requires Sensible(s) && Reached(s, steps).Some? && s.total == Total(Sizes(s)) && s.n > 1 && r < s.n
    ensures var k := Reached(s, steps).value;
            && |k.replicas| == s.n
            && (k.replicas[r].view.closed && k.replicas[r].fate != ABORTED ==>
                  Missing(s, k) <= Again(s, k, s.n) && (OnceOnly(s, k) ==> AllCounted(s, k)))
  {
    hide Reached, SumOver, AllCounted, AcksOk, EofsOk, TallyOk, OpenOk, DrainedOk, CountedOk, Evers;
    var k := Reached(s, steps).value;
    RunKeepsInv(s, steps);
    assert ReplicaOk(s, r, k.replicas[r]);
    hide ReplicaOk;
    if k.replicas[r].fate == DRAINED {
      MissingIsCountedAgain(s, k);
      if OnceOnly(s, k) { ReachedMeansCounted(s, k); }
    }
  }

  // ---------- where batches may be delivered ----------

  /** Whether a batch may be delivered to a replica. */
  type Queues = (nat, nat) -> bool

  /** Batches are delivered only where they may. */
  ghost predicate Within(steps: seq<Step>, may: Queues) {
    forall j :: 0 <= j < |steps| && steps[j].DeliverBatch? ==> may(steps[j].r, steps[j].i)
  }

  ghost predicate CountedWithin(s: Setup, k: Cluster, may: Queues) {
    |k.replicas| == s.n && forall r, i :: 0 <= r < s.n && i in k.replicas[r].counted ==> may(r, i)
  }

  lemma StepCountsWithin(s: Setup, k: Cluster, step: Step, may: Queues)
    requires Enabled(s, k, step) && (step.DeliverBatch? ==> may(step.r, step.i)) && CountedWithin(s, k, may)
    ensures CountedWithin(s, Next(s, k, step), may)
  {
    hide DataBusiness, UpstreamEofBusiness, EofReceivedBusiness, FlushOrderBusiness, FlushAckBusiness, AbortBusiness,
         Applied, AddBatches, OnProcessedAnswer, OnProcessedRequest;
  }

  lemma {:induction false} RunCountsWithin(s: Setup, steps: seq<Step>, may: Queues)
    requires Reached(s, steps).Some? && Within(steps, may)
    ensures CountedWithin(s, Reached(s, steps).value, may)
  {
    if steps != [] {
      var init := steps[..|steps| - 1];
      assert forall j :: 0 <= j < |init| ==> init[j] == steps[j];
      RunCountsWithin(s, init, may);
      hide Next, Enabled, CountedWithin;
      StepCountsWithin(s, Reached(s, init).value, steps[|steps| - 1], may);
    }
  }

  /** A personal queue for each replica. */
  function Homes(home: nat -> nat): Queues { (r: nat, i: nat) => home(i) == r }

  /** With a personal queue for each replica no batch is counted twice, whatever is redelivered. */
  lemma PersonalQueuesCountOnce(s: Setup, steps: seq<Step>, home: nat -> nat)
    requires Reached(s, steps).Some? && Within(steps, Homes(home))
    ensures var k := Reached(s, steps).value;
            && |k.replicas| == s.n && (forall r, i :: 0 <= r < s.n && i in k.replicas[r].counted ==> home(i) == r)
            && OnceOnly(s, k)
  {
    hide Reached;
    RunCountsWithin(s, steps, Homes(home));
  }

  // ---------- totals ----------

  /** Distinct destinations; every route names one of them and its logical output. */
  ghost predicate WellRouted(r: Routing) {
    && (forall i, j :: 0 <= i < j < |r.dests| ==> r.dests[i] != r.dests[j])
    && forall tx, p :: p in r.route(tx) ==> p.0 in r.dests && r.logicalOf(p.0) == p.1
  }

  /** Positions of the destinations behind logical output `l`. */
  ghost function Feeding(r: Routing, l: string): set<nat> {
    set j | j in Ids(|r.dests|) && r.logicalOf(r.dests[j]) == l
  }

  function CopyCounts(r: Routing, routes: seq<(string, string)>, payload: Bytes): seq<nat> {
    seq(|r.dests|, j requires 0 <= j < |r.dests| => |Copies(routes, r.dests[j], payload)|)
  }

  function DestCounts(r: Routing, txs: seq<Transaction>): seq<nat> {
    seq(|r.dests|, j requires 0 <= j < |r.dests| => |RoutedTo(r, txs, r.dests[j])|)
  }

  lemma {:induction false} HitsByDestination(r: Routing, routes: seq<(string, string)>, payload: Bytes, l: string)
    requires forall i, j :: 0 <= i < j < |r.dests| ==> r.dests[i] != r.dests[j]
    requires forall a :: 0 <= a < |routes| ==> routes[a].0 in r.dests && r.logicalOf(routes[a].0) == routes[a].1
    ensures Hits(routes, l) == SumOver(CopyCounts(r, routes, payload), Feeding(r, l))
  {
    hide SumOver;
    var w := CopyCounts(r, routes, payload);
    if routes == [] {
      NoneSum(w);
      SumEqual(w, w, Feeding(r, l), {});
    } else {
      var init, last := routes[..|routes| - 1], routes[|routes| - 1];
      HitsByDestination(r, init, payload, l);
      var v := CopyCounts(r, init, payload);
      assert last.0 in r.dests;
      var j :| 0 <= j < |r.dests| && r.dests[j] == last.0;
      assert w == v[j := v[j] + 1];
      SumBump(v, w, Feeding(r, l), j);
    }
  }

  /** A logical output's count is the number of payloads routed to its destinations. */
  lemma {:induction false} CountsByDestination(r: Routing, txs: seq<Transaction>, l: string)
    requires WellRouted(r)
    ensures RoutedCount(r, txs, l) == SumOver(DestCounts(r, txs), Feeding(r, l))
  {
    hide SumOver;
    var w := DestCounts(r, txs);
    if txs == [] {
      NoneSum(w);
      SumEqual(w, w, Feeding(r, l), {});
    } else {
      var init, tx := txs[..|txs| - 1], txs[|txs| - 1];
      CountsByDestination(r, init, l);
      var routes := r.route(tx);
      assert forall a :: 0 <= a < |routes| ==> routes[a] in routes;
      HitsByDestination(r, routes, r.serialize(tx), l);
      SumPlus(DestCounts(r, init), CopyCounts(r, routes, r.serialize(tx)), w, Feeding(r, l));
    }
  }

  /** Transactions in all DATA batches a replica has stamped, by destination. */
  function StampedCounts(r: Routing, rep: Replica): seq<nat> {
    seq(|r.dests|, j requires 0 <= j < |r.dests| => |Concat(Get(rep.stamped, r.dests[j], []))|)
  }

  /** Transactions in all DATA batches stamped for logical output `l`, per replica. */
  ghost function StampedFor(s: Setup, k: Cluster, l: string): seq<nat> {
    seq(|k.replicas|, q requires 0 <= q < |k.replicas| =>
      SumOver(StampedCounts(s.routing, k.replicas[q]), Feeding(s.routing, l)))
  }

  lemma StampedIsRouted(s: Setup, k: Cluster, l: string)
    requires WellRouted(s.routing) && Shaped(s, k)
    requires forall q :: 0 <= q < s.n ==> k.replicas[q].fate == DRAINED
    ensures StampedFor(s, k, l) == Routeds(s, k, l)
  {
    hide RoutedCount, RoutedTo, Txs, SumOver, Concat, OpenOk, WellRouted, CountedOk;
    forall q | 0 <= q < s.n
      ensures StampedFor(s, k, l)[q] == Routeds(s, k, l)[q]
    {
      var rep := k.replicas[q];
      assert ReplicaOk(s, q, rep);
      CountsByDestination(s.routing, Txs(s, rep.counted), l);
      assert StampedCounts(s.routing, rep) == DestCounts(s.routing, Txs(s, rep.counted));
    }
  }

  /** The whole upstream, batch after batch. */
  function Upstream(s: Setup): seq<Transaction> { Concat(s.upstream) }

  lemma {:induction false} UpstreamCount(r: Routing, upstream: seq<seq<Transaction>>, v: seq<nat>, l: string)
    requires |v| == |upstream| && forall i :: 0 <= i < |v| ==> v[i] == RoutedCount(r, upstream[i], l)
    ensures RoutedCount(r, Concat(upstream), l) == Total(v)
  {
    var n := |upstream| - 1;
    if upstream != [] {
      UpstreamCount(r, upstream[..n], v[..n], l);
      RoutedCountPlus(r, Concat(upstream[..n]), upstream[n], l);
      SumEqual(v[..n], v[..n], Ids(n), Ids(n + 1));
    } else {
      NoneSum(v);
    }
  }

  /** When everything has been counted, the replicas together routed exactly the upstream. */
  lemma RoutedIsUpstream(s: Setup, k: Cluster, l: string)
    requires Shaped(s, k) && AllCounted(s, k) && OnceOnly(s, k)
    ensures Total(Routeds(s, k, l)) == RoutedCount(s.routing, Upstream(s), l)
  {
    hide ReplicaOk, SumOver;
    RoutedOnce(s, k, s.n, l);
    var v := Hitting(s, l);
    forall i | 0 <= i < |v|
      ensures (if i in CountedBy(k, s.n) then v[i] else 0) == v[i]
    {
      CountedByMeaning(k, s.n, i);
    }
    SumEqual(v, v, CountedBy(k, s.n), Ids(|v|));
    UpstreamCount(s.routing, s.upstream, v, l);
  }

  /** The replica's stamped batches for `d` are, joined, exactly the payloads routed to `d` among the
      batches it counted: each in one batch, none twice, none missing. */
  ghost predicate StampedExactly(s: Setup, rep: Replica) {
    forall d :: Concat(Get(rep.stamped, d, [])) == RoutedTo(s.routing, Txs(s, rep.counted), d)
  }

  /** EOFs are stamped by the leader alone and once: one per destination. Every replica has then put each
      routed transaction into exactly one batch, and each EOF total is the number of transactions in all
      batches of all replicas for that output. With several replicas, an upstream total that is the number
      of upstream transactions, and no batch counted by two replicas, that is the number of upstream
      transactions routed to it. */
  lemma EofTotalsAreExact(s: Setup, steps: seq<Step>, r: nat)
    requires Sensible(s) && WellRouted(s.routing) && Reached(s, steps).Some? && r < s.n
    requires |Reached(s, steps).value.replicas| == s.n && Reached(s, steps).value.replicas[r].eofs != []
    ensures var k, eofs := Reached(s, steps).value, Reached(s, steps).value.replicas[r].eofs;
            && r == s.leader && |eofs| == |s.routing.dests|
            && (forall q :: 0 <= q < s.n ==> k.replicas[q].view.closed && StampedExactly(s, k.replicas[q]))
            && (forall i :: 0 <= i < |eofs| ==>
                  var l := s.routing.logicalOf(s.routing.dests[i]);
                  eofs[i] == (s.routing.dests[i], Total(StampedFor(s, k, l))))
            && (s.n > 1 && s.total == Total(Sizes(s)) && OnceOnly(s, k) ==>
                  && AllCounted(s, k)
                  && forall i :: 0 <= i < |eofs| ==>
                       eofs[i].1 == RoutedCount(s.routing, Upstream(s), s.routing.logicalOf(s.routing.dests[i])))
  {
    hide Reached, SumOver, AllCounted, AcksOk, TallyOk, PeerOk, OpenOk, CountedOk, Txs, RoutedTo, RoutedCount, Concat,
         Routeds, Evers, WellRouted;
    var k := Reached(s, steps).value;
    RunKeepsInv(s, steps);
    assert EofsOk(s, k, r);
    forall q | 0 <= q < s.n
      ensures k.replicas[q].view.closed && StampedExactly(s, k.replicas[q])
    {
      assert ReplicaOk(s, q, k.replicas[q]);
    }
    hide ReplicaOk, StampedExactly, StampedFor, Total;
    if s.n > 1 && s.total == Total(Sizes(s)) && OnceOnly(s, k) {
      ReachedMeansCounted(s, k);
    }
    forall i | 0 <= i < |s.routing.dests|
      ensures var l := s.routing.logicalOf(s.routing.dests[i]);
              Total(Routeds(s, k, l)) == Total(StampedFor(s, k, l))
      ensures AllCounted(s, k) && OnceOnly(s, k) ==> var l := s.routing.logicalOf(s.routing.dests[i]);
              Total(Routeds(s, k, l)) == RoutedCount(s.routing, Upstream(s), l)
    {
      var l := s.routing.logicalOf(s.routing.dests[i]);
      StampedIsRouted(s, k, l);
      if AllCounted(s, k) && OnceOnly(s, k) { RoutedIsUpstream(s, k, l); }
    }
  }
}
