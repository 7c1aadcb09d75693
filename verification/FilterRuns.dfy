/** Every reachable cluster state satisfies the invariant; what follows about end of stream. */
module FilterRuns {
  import opened Prelude
  import opened BatchBuffers
  import opened EofCoordination
  import opened FilterStates
  import opened Filters
  import opened Sums
  import opened FilterCluster

  /** A replica only counts more, and nothing at all once the client left it. */
  ghost predicate Evolves(s: Setup, a: Replica, b: Replica) {
    && (a.fate != OPEN ==> b.fate == a.fate && b.counted == a.counted)
    && |Txs(s, a.counted)| <= |Txs(s, b.counted)|
    && a.seen <= b.seen
  }

  ghost predicate Grows(s: Setup, k: Cluster, k2: Cluster) {
    && Shaped(s, k) && Shaped(s, k2)
    && forall r :: 0 <= r < s.n ==> Evolves(s, k.replicas[r], k2.replicas[r])
  }

  lemma TallyStays(s: Setup, k: Cluster, k2: Cluster, t: Tally)
    requires Grows(s, k, k2) && TallyOk(s, k, t)
    ensures TallyOk(s, k2, t)
  {
    hide ReplicaOk, Txs;
    SumAtMost(Evers(s, k), Evers(s, k2), t.0);
  }

  lemma TotalGrows(s: Setup, k: Cluster, k2: Cluster)
    requires Grows(s, k, k2)
    ensures Total(Evers(s, k)) <= Total(Evers(s, k2))
  {
    hide ReplicaOk, Txs;
    SumAtMost(Evers(s, k), Evers(s, k2), Ids(s.n));
  }

  lemma PeerStays(s: Setup, k: Cluster, k2: Cluster, p: Peer)
    requires Grows(s, k, k2) && PeerOk(s, k, p)
    ensures PeerOk(s, k2, p)
  {
    hide ReplicaOk, Txs;
    TotalGrows(s, k, k2);
  }

  lemma SumStays(s: Setup, k: Cluster, k2: Cluster, who: set<nat>, l: string)
    requires Grows(s, k, k2)
    requires forall r :: r in who && r < s.n ==> k.replicas[r].fate == DRAINED
    ensures SumOver(Routeds(s, k, l), who) == SumOver(Routeds(s, k2, l), who)
  {
    hide ReplicaOk, Txs, RoutedCount;
    SumEqual(Routeds(s, k, l), Routeds(s, k2, l), who, who);
  }

  lemma AcksStay(s: Setup, k: Cluster, k2: Cluster, a: Replica, b: Replica)
    requires Grows(s, k, k2) && AcksOk(s, k, a)
    requires b.view.acks == a.view.acks && b.view.allForwarded == a.view.allForwarded && a.seen <= b.seen
    ensures AcksOk(s, k2, b)
  {
    hide ReplicaOk, Routeds, SumOver;
    forall l
      ensures Get(b.view.allForwarded, l, 0) == SumOver(Routeds(s, k2, l), b.view.acks)
    {
      SumStays(s, k, k2, a.view.acks, l);
    }
  }

  lemma {:induction false} NoneSum(v: seq<nat>)
    ensures SumOver(v, {}) == 0
  {
    if v != [] {
      NoneSum(v[..|v| - 1]);
    }
  }

  lemma AcksNone(s: Setup, k: Cluster, rep: Replica)
    requires Shaped(s, k) && rep.view.acks == {} && rep.view.allForwarded == map[]
    ensures AcksOk(s, k, rep)
  {
    hide ReplicaOk, Routeds, SumOver;
    forall l
      ensures Get(rep.view.allForwarded, l, 0) == SumOver(Routeds(s, k, l), rep.view.acks)
    {
      NoneSum(Routeds(s, k, l));
    }
  }

  lemma EofsStay(s: Setup, k: Cluster, k2: Cluster, r: nat)
    requires Grows(s, k, k2) && r < s.n && EofsOk(s, k, r)
    requires k2.replicas[r].eofs == k.replicas[r].eofs
    ensures EofsOk(s, k2, r)
  {
    hide ReplicaOk, Routeds, SumOver;
    if k.replicas[r].eofs != [] {
      forall i | 0 <= i < |s.routing.dests|
        ensures var l := s.routing.logicalOf(s.routing.dests[i]); Total(Routeds(s, k, l)) == Total(Routeds(s, k2, l))
      {
        SumStays(s, k, k2, Ids(s.n), s.routing.logicalOf(s.routing.dests[i]));
      }
    }
  }

  /** What a step that changes one replica has to show. */
  ghost predicate Fits(s: Setup, k: Cluster, k2: Cluster, r: nat, rep: Replica, messages: seq<(nat, Peer)>) {
    && Inv(s, k) && r < s.n && k2 == Put(k, r, rep, messages)
    && ReplicaOk(s, r, rep) && Evolves(s, k.replicas[r], rep)
  }

  lemma FitsGrows(s: Setup, k: Cluster, k2: Cluster, r: nat, rep: Replica, messages: seq<(nat, Peer)>)
    requires Fits(s, k, k2, r, rep, messages)
    ensures Grows(s, k, k2)
  {
    hide ReplicaOk, Txs;
  }

  lemma InvFrom(s: Setup, k: Cluster, k2: Cluster, r: nat, rep: Replica, messages: seq<(nat, Peer)>)
    requires Fits(s, k, k2, r, rep, messages) && Grows(s, k, k2)
    requires forall t :: t in rep.tallies && t !in k.replicas[r].tallies ==> TallyOk(s, k2, t)
    requires forall m :: m in messages ==> PeerOk(s, k2, m.1)
    requires AcksOk(s, k2, rep) && EofsOk(s, k2, r)
    requires s.n > 1 && rep.fate == DRAINED ==> s.total <= Total(Evers(s, k2))
    ensures Inv(s, k2)
  {
    hide ReplicaOk, Evolves, TallyOk, PeerOk, AcksOk, EofsOk, Evers;
    forall q, t | 0 <= q < s.n && t in k2.replicas[q].tallies
      ensures TallyOk(s, k2, t)
    {
      if t in k.replicas[q].tallies { TallyStays(s, k, k2, t); }
    }
    forall m | m in k2.net
      ensures PeerOk(s, k2, m.1)
    {
      if m in k.net { PeerStays(s, k, k2, m.1); }
    }
    forall q | 0 <= q < s.n
      ensures AcksOk(s, k2, k2.replicas[q]) && EofsOk(s, k2, q)
    {
      if q != r {
        AcksStay(s, k, k2, k.replicas[q], k2.replicas[q]);
        EofsStay(s, k, k2, q);
      }
    }
    TotalGrows(s, k, k2);
    assert s.n > 1 ==> forall q :: 0 <= q < s.n && k2.replicas[q].fate == DRAINED ==>
      q == r || k.replicas[q].fate == DRAINED;
  }

  /** A step that leaves tallies, acks, EOFs and the client's fate alone. */
  lemma InvQuiet(s: Setup, k: Cluster, k2: Cluster, r: nat, rep: Replica, messages: seq<(nat, Peer)>)
    requires Fits(s, k, k2, r, rep, messages) && Grows(s, k, k2)
    requires var a := k.replicas[r];
             && rep.tallies == a.tallies && rep.eofs == a.eofs && rep.fate == a.fate
             && rep.view.acks == a.view.acks && rep.view.allForwarded == a.view.allForwarded
    requires forall m :: m in messages ==> PeerOk(s, k2, m.1)
    ensures Inv(s, k2)
  {
    hide ReplicaOk, Evolves, TallyOk, PeerOk, AcksOk, EofsOk, Evers;
    assert Evolves(s, k.replicas[r], k2.replicas[r]);
    SeenGrows(s, k.replicas[r], rep);
    AcksStay(s, k, k2, k.replicas[r], rep);
    EofsStay(s, k, k2, r);
    TotalGrows(s, k, k2);
    InvFrom(s, k, k2, r, rep, messages);
  }

  lemma SeenGrows(s: Setup, a: Replica, b: Replica)
    requires Evolves(s, a, b)
    ensures a.seen <= b.seen
  {
  }

  // ---------- data batches ----------

  lemma TxsSnoc(s: Setup, counted: seq<nat>, i: nat)
    ensures Txs(s, counted + [i]) == Txs(s, counted) + BatchAt(s, i)
  {
    assert (counted + [i])[..|counted|] == counted;
  }

  /** For an open client the empty batch is no special case. */
  lemma DataOfOpen(s: Setup, r: nat, v: FilterView, txs: seq<Transaction>)
    requires !v.closed
    ensures var appends, b := AppendsOf(s.routing, txs), DataBusiness(s.routing, SiteOf(s, r), v, s.client, txs);
            && b.change == Data(s.client, |txs|, appends, CountsOf(s.routing, txs)) && b.eofs == [] && b.messages == []
            && b.data.Keys == appends.Keys
            && forall d :: d in appends ==> b.data[d] == AppendAll(s.lim, Get(v.buffer, d, []), appends[d]).flushed
  {
    hide AppendAll;
  }

  /** Counting a batch: each destination's stamped batches and buffer take exactly its payloads. */
  lemma DestinationStep(s: Setup, r: nat, rep: Replica, i: nat, d: string)
    requires !rep.view.closed && OpenOk(s, rep) && i < |s.upstream|
    ensures var b := DataBusiness(s.routing, SiteOf(s, r), rep.view, s.client, s.upstream[i]);
            Concat(Get(AddBatches(rep.stamped, b.data), d, [])) +
            Get(Appended(s.lim, rep.view.buffer, AppendsOf(s.routing, s.upstream[i])), d, []) ==
            RoutedTo(s.routing, Txs(s, rep.counted + [i]), d)
  {
    hide AppendAll, AppendsOf, Appended, Txs, RoutedTo, DataBusiness, Concat;
    var txs := s.upstream[i];
    var appends, b := AppendsOf(s.routing, txs), DataBusiness(s.routing, SiteOf(s, r), rep.view, s.client, txs);
    DataOfOpen(s, r, rep.view, txs);
    AppendedAt(s.lim, rep.view.buffer, appends, d);
    AppendsAt(s.routing, txs, d);
    TxsSnoc(s, rep.counted, i);
    RoutedToPlus(s.routing, Txs(s, rep.counted), txs, d);
    var was, buf := Get(rep.stamped, d, []), Get(rep.view.buffer, d, []);
    var payloads := Get(appends, d, []);
    if d in appends {
      var run := AppendAll(s.lim, buf, payloads);
      AppendAllIsGreedy(s.lim, buf, payloads);
      ConcatPlus(was, run.flushed);
      assert Concat(was + run.flushed) + run.kept == Concat(was) + (Concat(run.flushed) + run.kept);
      assert (Concat(was) + buf) + payloads == Concat(was) + (buf + payloads);
    } else {
      assert was + [] == was;
      assert (Concat(was) + buf) + [] == Concat(was) + buf;
    }
  }

  lemma BatchOpenOk(s: Setup, r: nat, rep: Replica, i: nat)
    requires !rep.view.closed && OpenOk(s, rep) && i < |s.upstream|
    ensures var b := DataBusiness(s.routing, SiteOf(s, r), rep.view, s.client, s.upstream[i]);
            OpenOk(s, Handled(s, r, rep, BatchIn(i), b, rep.fate).(counted := rep.counted + [i]))
  {
    hide AppendAll, AppendsOf, CountsOf, Appended, Txs, RoutedTo, RoutedCount, DataBusiness, AddBatches, Concat, Sum;
    var txs := s.upstream[i];
    var b := DataBusiness(s.routing, SiteOf(s, r), rep.view, s.client, txs);
    DataOfOpen(s, r, rep.view, txs);
    TxsSnoc(s, rep.counted, i);
    var next := Handled(s, r, rep, BatchIn(i), b, rep.fate).(counted := rep.counted + [i]);
    assert next.view == AppliedData(s.lim, rep.view, |txs|, AppendsOf(s.routing, txs), CountsOf(s.routing, txs));
    forall l
      ensures Get(next.view.forwarded, l, 0) == RoutedCount(s.routing, Txs(s, next.counted), l)
    {
      CountsAt(s.routing, txs, l);
      RoutedCountPlus(s.routing, Txs(s, rep.counted), txs, l);
    }
    forall d {
      DestinationStep(s, r, rep, i, d);
    }
    AppendedAt(s.lim, rep.view.buffer, AppendsOf(s.routing, txs), "");
  }

  /** The replica after a first-time batch. */
  function WithBatch(s: Setup, r: nat, rep: Replica, i: nat): Replica
    requires i < |s.upstream|
  {
    var b := DataBusiness(s.routing, SiteOf(s, r), rep.view, s.client, s.upstream[i]);
    Handled(s, r, rep, BatchIn(i), b, rep.fate).(counted := if rep.view.closed then rep.counted else rep.counted + [i])
  }

  lemma BatchFrame(s: Setup, r: nat, rep: Replica, i: nat)
    requires i < |s.upstream|
    ensures var next := WithBatch(s, r, rep, i);
            && next.eofs == rep.eofs && next.fate == rep.fate && next.tallies == rep.tallies
            && next.view.closed == rep.view.closed && next.view.coord == rep.view.coord
            && next.view.acks == rep.view.acks && next.view.allForwarded == rep.view.allForwarded
            && next.seen == rep.seen + {BatchIn(i)}
            && (rep.view.closed ==> next.view == rep.view && next.stamped == AddBatches(rep.stamped, map[]))
  {
    hide AppendsOf, CountsOf, Appended, AppendAll, Sum, AddBatches;
    assert rep.eofs + [] == rep.eofs;
  }

  lemma BatchReplicaOk(s: Setup, r: nat, rep: Replica, i: nat)
    requires ReplicaOk(s, r, rep) && i < |s.upstream| && BatchIn(i) !in rep.seen
    ensures ReplicaOk(s, r, WithBatch(s, r, rep, i)) && Evolves(s, rep, WithBatch(s, r, rep, i))
  {
    hide Txs, OpenOk, DrainedOk, AddBatches, Handled, WithBatch, DataBusiness;
    var next := WithBatch(s, r, rep, i);
    BatchFrame(s, r, rep, i);
    BatchCounted(s, r, rep, i);
    if rep.view.closed {
      SameDrained(s, rep, next);
    }
  }

  lemma BatchCounted(s: Setup, r: nat, rep: Replica, i: nat)
    requires i < |s.upstream| && (rep.view.closed || OpenOk(s, rep))
    ensures var next := WithBatch(s, r, rep, i);
            && next.counted == (if rep.view.closed then rep.counted else rep.counted + [i])
            && |Txs(s, rep.counted)| <= |Txs(s, next.counted)|
            && (!rep.view.closed ==> OpenOk(s, next))
  {
    if !rep.view.closed {
      BatchOpenOk(s, r, rep, i);
      hide OpenOk, Handled;
      TxsSnoc(s, rep.counted, i);
    }
  }

  lemma BatchKeeps(s: Setup, k: Cluster, r: nat, i: nat)
    requires Inv(s, k) && Enabled(s, k, DeliverBatch(r, i))
    ensures Inv(s, OnBatch(s, k, r, i))
  {
    var rep, k2 := k.replicas[r], OnBatch(s, k, r, i);
    if BatchIn(i) !in rep.seen {
      var next := WithBatch(s, r, rep, i);
      assert k2 == Put(k, r, next, []);
      hide OnBatch, WithBatch, Txs, ReplicaOk, TallyOk, PeerOk, AcksOk, EofsOk, Evers, Evolves, Total;
      assert ReplicaOk(s, r, rep);
      BatchReplicaOk(s, r, rep, i);
      BatchFrame(s, r, rep, i);
      FitsGrows(s, k, k2, r, next, []);
      InvQuiet(s, k, k2, r, next, []);
    }
  }

  lemma SameDrained(s: Setup, a: Replica, b: Replica)
    requires b.counted == a.counted && b.stamped == AddBatches(a.stamped, map[])
    ensures DrainedOk(s, a) ==> DrainedOk(s, b)
  {
    hide Txs, RoutedTo, Concat;
    forall d ensures Get(b.stamped, d, []) == Get(a.stamped, d, []) {
      assert Get(a.stamped, d, []) + [] == Get(a.stamped, d, []);
    }
  }

  // ---------- upstream end of stream ----------

  /** Draining stamps what is left in the buffer. */
  lemma DrainStamps(s: Setup, a: Replica, b: Replica)
    requires OpenOk(s, a) && b.counted == a.counted && b.stamped == AddBatches(a.stamped, DrainBatches(a.view))
    ensures DrainedOk(s, b)
  {
    hide Txs, RoutedTo, Concat;
    forall d
      ensures Concat(Get(b.stamped, d, [])) == RoutedTo(s.routing, Txs(s, b.counted), d)
    {
      var was := Get(a.stamped, d, []);
      assert was + [] == was && Concat(was) + [] == Concat(was);
      if d in a.view.buffer {
        ConcatSnoc(was, a.view.buffer[d]);
      }
    }
  }

  lemma OpenSame(s: Setup, a: Replica, b: Replica)
    requires OpenOk(s, a) && b.counted == a.counted && b.stamped == AddBatches(a.stamped, map[])
    requires b.view.processed == a.view.processed && b.view.forwarded == a.view.forwarded
    requires b.view.buffer == a.view.buffer
    ensures OpenOk(s, b)
  {
    hide Txs, RoutedTo, RoutedCount, Concat;
    forall d ensures Get(b.stamped, d, []) == Get(a.stamped, d, []) {
      assert Get(a.stamped, d, []) + [] == Get(a.stamped, d, []);
    }
  }

  /** An open replica has stamped no EOF. */
  lemma OpenNoEofs(s: Setup, k: Cluster, r: nat)
    requires Inv(s, k) && r < s.n && k.replicas[r].fate == OPEN
    ensures k.replicas[r].eofs == []
  {
    hide ReplicaOk, Routeds, Total, AcksOk, PeerOk, TallyOk;
    assert EofsOk(s, k, r);
  }

  lemma UpstreamKeepsMany(s: Setup, k: Cluster)
    requires Inv(s, k) && Enabled(s, k, DeliverUpstreamEof) && s.n > 1
    ensures Inv(s, OnUpstream(s, k))
  {
    var rep := k.replicas[s.leader];
    if UpstreamEofIn !in rep.seen && !rep.view.closed {
      hide Txs, OpenOk, DrainedOk, TallyOk, AcksOk, EofsOk, Evers, AddBatches, Total;
      var b := UpstreamEofBusiness(s.routing, SiteOf(s, s.leader), rep.view, s.client, s.total);
      var next := Handled(s, s.leader, rep, UpstreamEofIn, b, rep.fate);
      assert next.eofs == rep.eofs;
      OpenSame(s, rep, next);
      var k2 := OnUpstream(s, k);
      FitsGrows(s, k, k2, s.leader, next, b.messages);
      InvQuiet(s, k, k2, s.leader, next, b.messages);
    }
  }

  lemma SingleTotal(s: Setup, k: Cluster, l: string)
    requires Shaped(s, k) && s.n == 1
    ensures Total(Routeds(s, k, l)) == RoutedCount(s.routing, Txs(s, k.replicas[0].counted), l)
  {
    hide ReplicaOk, Txs, RoutedCount;
    var v := Routeds(s, k, l);
    SumOne(v, 0);
    SumEqual(v, v, Ids(1), {0});
  }

  /** A single replica closes at once, with its own totals. */
  lemma UpstreamKeepsOne(s: Setup, k: Cluster)
    requires Inv(s, k) && Enabled(s, k, DeliverUpstreamEof) && s.n == 1
    ensures Inv(s, OnUpstream(s, k))
  {
    var rep := k.replicas[0];
    if UpstreamEofIn !in rep.seen && !rep.view.closed {
      hide Txs, DrainedOk, TallyOk, AcksOk, Evers, AddBatches, Total, Routeds, RoutedCount, RoutedTo;
      var site := SiteOf(s, 0);
      var b := UpstreamEofBusiness(s.routing, site, rep.view, s.client, s.total);
      AppliedTwo(site, rep.view, s.client, UpstreamEof(s.client, s.total, rep.view.processed), Close(s.client));
      var next := Handled(s, 0, rep, UpstreamEofIn, b, DRAINED);
      assert next.view == Closed(rep.view);
      OpenNoEofs(s, k, 0);
      DrainStamps(s, rep, next);
      var k2 := OnUpstream(s, k);
      FitsGrows(s, k, k2, 0, next, []);
      AcksNone(s, k2, next);
      forall l
        ensures Get(rep.view.forwarded, l, 0) == Total(Routeds(s, k2, l))
      {
        SingleTotal(s, k2, l);
      }
      InvFrom(s, k, k2, 0, next, []);
    }
  }

  // ---------- count collection ----------

  /** Reported counts never overstate what their sender has counted. */
  lemma HonestAnswer(s: Setup, k: Cluster, r: nat, forwarded: nat)
    requires Shaped(s, k) && r < s.n
    ensures PeerOk(s, k, Ctrl(Answer(r, k.replicas[r].view.processed, forwarded)))
  {
    hide Txs, DrainedOk;
    assert ReplicaOk(s, r, k.replicas[r]);
  }

  lemma AnnouncedKeeps(s: Setup, k: Cluster, r: nat, c: Control, forwarded: nat)
    requires Inv(s, k) && r < s.n
    ensures Inv(s, OnAnnounced(s, k, r, c, forwarded))
  {
    var rep := k.replicas[r];
    if EofReceivedIn(c.sender) !in rep.seen {
      hide Txs, OpenOk, DrainedOk, TallyOk, AcksOk, EofsOk, Evers, AddBatches, Total, PeerOk;
      var b := EofReceivedBusiness(SiteOf(s, r), rep.view, s.client, c, forwarded);
      var next := Handled(s, r, rep, EofReceivedIn(c.sender), b, rep.fate);
      assert next.eofs == rep.eofs;
      if rep.fate == OPEN { OpenSame(s, rep, next); }
      SameDrained(s, rep, next);
      var k2 := OnAnnounced(s, k, r, c, forwarded);
      FitsGrows(s, k, k2, r, next, b.messages);
      HonestAnswer(s, k2, r, forwarded);
      InvQuiet(s, k, k2, r, next, b.messages);
    }
  }

  lemma RequestKeeps(s: Setup, k: Cluster, r: nat, forwarded: nat)
    requires Inv(s, k) && r < s.n
    ensures Inv(s, OnRequest(s, k, r, forwarded))
  {
    hide Txs, OpenOk, DrainedOk, TallyOk, AcksOk, EofsOk, Evers, Total, PeerOk;
    var rep := k.replicas[r];
    var action := OnProcessedRequest(r, rep.view.coord, rep.view.processed, forwarded).action;
    var messages := if action.SendAnswer? then [(action.leader, Ctrl(action.message))] else [];
    var k2 := OnRequest(s, k, r, forwarded);
    FitsGrows(s, k, k2, r, rep, messages);
    HonestAnswer(s, k2, r, forwarded);
    InvQuiet(s, k, k2, r, rep, messages);
  }

  lemma TallyAdds(s: Setup, k: Cluster, t: Tally, c: Control)
    requires Shaped(s, k) && TallyOk(s, k, t) && c.sender !in t.0
    requires MessageOk(s, k, Message(PROCESSED_ANSWER, c))
    ensures TallyOk(s, k, (t.0 + {c.sender}, t.1 + c.processedCount))
    ensures TallyOk(s, k, ({}, 0))
  {
    hide ReplicaOk, Txs, Evers;
    SumInsert(Evers(s, k), t.0, c.sender);
    NoneSum(Evers(s, k));
  }

  /** Everybody answered and the sum reaches the announced total: it was really counted. */
  lemma FullRound(s: Setup, k: Cluster, t: Tally)
    requires Shaped(s, k) && TallyOk(s, k, t) && |t.0| >= s.n
    ensures t.1 <= Total(Evers(s, k))
  {
    hide ReplicaOk, Txs, Evers;
    SameSize(t.0, Ids(s.n));
  }

  /** The tally after an answer, and what is broadcast because of it, are sound. */
  lemma AnswerSound(s: Setup, k: Cluster, r: nat, v: Coord, c: Control)
    requires Shaped(s, k) && r < s.n && TallyOk(s, k, (v.responders, v.processed))
    requires MessageOk(s, k, Message(PROCESSED_ANSWER, c))
    requires v.expected.Some? ==>
               v.expected == Some(s.total) && s.n > 1 && s.leader < s.n && UpstreamEofIn in k.replicas[s.leader].seen
    ensures var o := OnProcessedAnswer(r, s.n, v, c);
            && TallyOk(s, k, (o.state.responders, o.state.processed)) && o.state.expected == v.expected
            && o.state.pending == v.pending
            && (o.action.Broadcast? ==> MessageOk(s, k, o.action.message))
  {
    hide ReplicaOk, Evers, TallyOk, Total;
    if c.sender !in v.responders {
      TallyAdds(s, k, (v.responders, v.processed), c);
      var t2 := (v.responders + {c.sender}, v.processed + c.processedCount);
      if |t2.0| >= s.n { FullRound(s, k, t2); }
    }
  }

  lemma AnswerKeeps(s: Setup, k: Cluster, r: nat, c: Control)
    requires Inv(s, k) && Enabled(s, k, DeliverAnswer(r, c))
    ensures Inv(s, OnAnswer(s, k, r, c))
  {
    hide Txs, OpenOk, DrainedOk, AcksOk, EofsOk, Evers, Total, OnProcessedAnswer, TallyOk;
    var rep := k.replicas[r];
    var o := OnProcessedAnswer(r, s.n, rep.view.coord, c);
    var next := WithCoord(rep, o.state);
    var messages := if o.action.Broadcast? then ToAll(s.n, o.action.message) else [];
    var k2 := OnAnswer(s, k, r, c);
    assert PeerOk(s, k, Ctrl(Message(PROCESSED_ANSWER, c)));
    assert ReplicaOk(s, r, rep);
    AnswerSound(s, k, r, rep.view.coord, c);
    StillOpenOk(s, rep, next);
    FitsGrows(s, k, k2, r, next, messages);
    AcksStay(s, k, k2, rep, next);
    EofsStay(s, k, k2, r);
    TotalGrows(s, k, k2);
    TallyStays(s, k, k2, TallyOf(next.view));
    if o.action.Broadcast? { PeerStays(s, k, k2, Ctrl(o.action.message)); }
    hide ReplicaOk, MessageOk, PeerOk;
    InvFrom(s, k, k2, r, next, messages);
  }

  /** The coordinator's part is not involved in what is routed. */
  lemma StillOpenOk(s: Setup, a: Replica, b: Replica)
    requires b.counted == a.counted && b.stamped == a.stamped
    requires b.view.processed == a.view.processed && b.view.forwarded == a.view.forwarded
    requires b.view.buffer == a.view.buffer
    ensures OpenOk(s, a) ==> OpenOk(s, b)
    ensures DrainedOk(s, a) ==> DrainedOk(s, b)
  {
    hide Txs, RoutedTo, RoutedCount, Concat;
  }

  lemma CrashKeeps(s: Setup, k: Cluster, r: nat, tally: Tally)
    requires Inv(s, k) && Enabled(s, k, Crash(r, tally))
    ensures Inv(s, OnCrash(k, r, tally))
  {
    hide Txs, OpenOk, DrainedOk, AcksOk, EofsOk, Evers, Total, TallyOk, PeerOk;
    var rep, k2 := k.replicas[r], OnCrash(k, r, tally);
    var next := k2.replicas[r];
    StillOpenOk(s, rep, next);
    FitsGrows(s, k, k2, r, next, []);
    InvQuiet(s, k, k2, r, next, []);
  }

  // ---------- flush and close ----------

  /** The leader never obeys its own FLUSH_ORDER. */
  lemma FollowerObeys(s: Setup, k: Cluster, r: nat, c: Control)
    requires Inv(s, k) && Enabled(s, k, DeliverFlushOrder(r, c)) && ObeysFlush(k.replicas[r].view)
    ensures r != s.leader && k.replicas[r].fate == OPEN && s.n > 1 && s.total <= Total(Evers(s, k))
  {
    hide Txs, OpenOk, DrainedOk, AcksOk, EofsOk, Evers, Total, TallyOk;
    assert PeerOk(s, k, Ctrl(Message(FLUSH_ORDER, c)));
    assert ReplicaOk(s, r, k.replicas[r]);
  }

  lemma ClosedByCleanup(site: Site, v: FilterView, client: nat)
    ensures Applied(site, v, client, Compound([Cleanup(client, false), Close(client)])) ==
            FilterView(0, map[], true, map[], {}, map[], v.coord.(pending := None))
  {
    AppliedTwo(site, v, client, Cleanup(client, false), Close(client));
  }

  lemma OrderKeeps(s: Setup, k: Cluster, r: nat, c: Control)
    requires Inv(s, k) && Enabled(s, k, DeliverFlushOrder(r, c))
    ensures Inv(s, OnOrder(s, k, r, c))
  {
    hide Txs, DrainedOk, AcksOk, EofsOk, Evers, Total, TallyOk, RoutedTo, RoutedCount, AddBatches, Applied;
    var rep := k.replicas[r];
    if FlushOrderIn(c.sender) !in rep.seen && ObeysFlush(rep.view) {
      FollowerObeys(s, k, r, c);
      var b := FlushOrderBusiness(SiteOf(s, r), rep.view, s.client, c.sender);
      ClosedByCleanup(SiteOf(s, r), rep.view, s.client);
      var next := Handled(s, r, rep, FlushOrderIn(c.sender), b, DRAINED);
      assert next.eofs == rep.eofs;
      DrainStamps(s, rep, next);
      var k2 := OnOrder(s, k, r, c);
      FitsGrows(s, k, k2, r, next, b.messages);
      AcksNone(s, k2, next);
      EofsStay(s, k, k2, r);
      TotalGrows(s, k, k2);
      assert FlushedOk(s, k2, r, rep.view.forwarded);
      hide OpenOk, ReplicaOk;
      InvFrom(s, k, k2, r, next, b.messages);
    }
  }

  /** The first abort leaves nothing of the client at the replica but the marks that it has closed and was aborted, and
      sends the others nothing. */
  lemma AbortForgets(s: Setup, k: Cluster, r: nat)
    requires r < |k.replicas| && AbortIn !in k.replicas[r].seen
    ensures var k2, rep := OnAbort(s, k, r), k.replicas[r];
            && k2.net == k.net && k2.replicas[r].fate == (if rep.fate == OPEN then ABORTED else rep.fate)
            && k2.replicas[r].view ==
               FilterView(0, map[], true, map[], {}, map[], rep.view.coord.(pending := None))
            && k2.replicas[r].eofs == rep.eofs && k2.replicas[r].counted == rep.counted
            && forall q :: 0 <= q < |k.replicas| && q != r ==> k2.replicas[q] == k.replicas[q]
  {
    hide Applied, AddBatches;
    ClosedByCleanup(SiteOf(s, r), k.replicas[r].view, s.client);
    assert k.net + {} == k.net;
  }

  lemma AbortKeeps(s: Setup, k: Cluster, r: nat)
    requires Inv(s, k) && r < s.n
    ensures Inv(s, OnAbort(s, k, r))
  {
    hide Txs, OpenOk, DrainedOk, AcksOk, EofsOk, Evers, Total, TallyOk, PeerOk, AddBatches, Applied;
    var rep := k.replicas[r];
    if AbortIn !in rep.seen {
      var fate := if rep.fate == OPEN then ABORTED else rep.fate;
      var next := Handled(s, r, rep, AbortIn, AbortBusiness(s.client), fate);
      ClosedByCleanup(SiteOf(s, r), rep.view, s.client);
      SameDrained(s, rep, next);
      var k2 := OnAbort(s, k, r);
      assert next.eofs == rep.eofs;
      FitsGrows(s, k, k2, r, next, []);
      AcksNone(s, k2, next);
      EofsStay(s, k, k2, r);
      TotalGrows(s, k, k2);
      InvFrom(s, k, k2, r, next, []);
    }
  }

  /** Facts about an ack the leader counts for the first time. */
  lemma FreshAck(s: Setup, k: Cluster, r: nat, sender: nat, counts: Counts)
    requires Inv(s, k) && Enabled(s, k, DeliverFlushAck(r, sender, counts))
    requires FlushAckIn(sender) !in k.replicas[r].seen && CountsAcks(k.replicas[r].view)
    ensures r == s.leader && k.replicas[r].fate == OPEN && s.n > 1
    ensures sender !in k.replicas[r].view.acks && FlushedOk(s, k, sender, counts)
  {
    hide Txs, OpenOk, DrainedOk, EofsOk, Evers, Total, TallyOk, Routeds, RoutedCount, SumOver;
    assert PeerOk(s, k, Flushed(sender, counts));
    assert ReplicaOk(s, r, k.replicas[r]);
    assert AcksOk(s, k, k.replicas[r]);
  }

  lemma AckAdds(s: Setup, k: Cluster, a: Replica, b: Replica, sender: nat, counts: Counts)
    requires Shaped(s, k) && AcksOk(s, k, a) && FlushedOk(s, k, sender, counts) && sender !in a.view.acks
    requires b.view.acks == a.view.acks + {sender} && b.view.allForwarded == Sum(a.view.allForwarded, counts)
    requires b.seen == a.seen + {FlushAckIn(sender)}
    ensures AcksOk(s, k, b)
  {
    hide Txs, ReplicaOk, RoutedCount, SumOver, Sum;
    forall l
      ensures Get(b.view.allForwarded, l, 0) == SumOver(Routeds(s, k, l), b.view.acks)
    {
      SumInsert(Routeds(s, k, l), a.view.acks, sender);
      assert Get(Sum(a.view.allForwarded, counts), l, 0) == Get(a.view.allForwarded, l, 0) + Get(counts, l, 0);
    }
  }

  lemma AckKeepsEarly(s: Setup, k: Cluster, r: nat, sender: nat, counts: Counts)
    requires Inv(s, k) && Enabled(s, k, DeliverFlushAck(r, sender, counts))
    requires FlushAckIn(sender) !in k.replicas[r].seen && CountsAcks(k.replicas[r].view)
    requires |k.replicas[r].view.acks| + 1 < s.n - 1
    ensures Inv(s, OnAck(s, k, r, sender, counts))
  {
    hide Txs, OpenOk, DrainedOk, AcksOk, EofsOk, Evers, Total, TallyOk, PeerOk, AddBatches, FlushedOk, Sum;
    FreshAck(s, k, r, sender, counts);
    var rep, k2 := k.replicas[r], OnAck(s, k, r, sender, counts);
    var b := FlushAckBusiness(s.routing, SiteOf(s, r), rep.view, s.client, sender, counts);
    var next := Handled(s, r, rep, FlushAckIn(sender), b, rep.fate);
    assert next.eofs == rep.eofs;
    OpenSame(s, rep, next);
    FitsGrows(s, k, k2, r, next, []);
    AckInto(s, k, k2, r, next, sender, counts);
    EofsStay(s, k, k2, r);
    InvFrom(s, k, k2, r, next, []);
  }

  lemma AckInto(s: Setup, k: Cluster, k2: Cluster, r: nat, next: Replica, sender: nat, counts: Counts)
    requires Inv(s, k) && r < s.n && Grows(s, k, k2)
    requires sender !in k.replicas[r].view.acks && FlushedOk(s, k, sender, counts)
    requires next.view.acks == k.replicas[r].view.acks + {sender}
    requires next.view.allForwarded == Sum(k.replicas[r].view.allForwarded, counts)
    requires next.seen == k.replicas[r].seen + {FlushAckIn(sender)}
    ensures AcksOk(s, k2, next)
  {
    hide AcksOk, Sum, ReplicaOk, EofsOk, Evers, Total, TallyOk, Evolves;
    AcksStay(s, k, k2, k.replicas[r], k.replicas[r]);
    PeerStays(s, k, k2, Flushed(sender, counts));
    AckAdds(s, k2, k.replicas[r], next, sender, counts);
  }

  /** With the last ack in, the leader's own counts complete the sum over all replicas. */
  lemma LastAckTotal(s: Setup, k: Cluster, rep: Replica, sender: nat, counts: Counts, l: string)
    requires Sensible(s) && Shaped(s, k) && AcksOk(s, k, rep) && FlushedOk(s, k, sender, counts)
    requires sender !in rep.view.acks && |rep.view.acks| + 1 >= s.n - 1
    requires rep.counted == k.replicas[s.leader].counted && OpenOk(s, rep)
    ensures forall q :: 0 <= q < s.n && q != s.leader ==> k.replicas[q].fate == DRAINED
    ensures Get(Sum(Sum(rep.view.allForwarded, counts), rep.view.forwarded), l, 0) == Total(Routeds(s, k, l))
  {
    hide Txs, ReplicaOk, RoutedCount, RoutedTo, SumOver;
    var v, acks := Routeds(s, k, l), rep.view.acks + {sender};
    AllOthers(acks, s.n, s.leader);
    forall q | 0 <= q < s.n && q != s.leader
      ensures k.replicas[q].fate == DRAINED
    {
      assert q in acks;
    }
    SumInsert(v, rep.view.acks, sender);
    SumInsert(v, acks, s.leader);
    assert acks + {s.leader} == Ids(s.n);
    var part := Sum(rep.view.allForwarded, counts);
    assert Get(part, l, 0) == Get(rep.view.allForwarded, l, 0) + Get(counts, l, 0);
    assert Get(Sum(part, rep.view.forwarded), l, 0) == Get(part, l, 0) + Get(rep.view.forwarded, l, 0);
  }

  lemma ClosedByAck(site: Site, v: FilterView, client: nat, sender: nat, counts: Counts)
    ensures Applied(site, v, client, Compound([FlushAckFrom(client, sender, counts), Cleanup(client, true),
                                               Close(client)])) ==
            FilterView(0, map[], true, map[], {}, map[],
                       v.coord.(pending := None, expected := None, acks := {}, ackForwarded := 0))
  {
    AppliedThree(site, v, client, FlushAckFrom(client, sender, counts), Cleanup(client, true), Close(client));
  }

  lemma LastAckFits(s: Setup, k: Cluster, r: nat, sender: nat, counts: Counts)
    requires Sensible(s) && Inv(s, k) && Enabled(s, k, DeliverFlushAck(r, sender, counts))
    requires FlushAckIn(sender) !in k.replicas[r].seen && CountsAcks(k.replicas[r].view)
    requires |k.replicas[r].view.acks| + 1 >= s.n - 1
    ensures var k2 := OnAck(s, k, r, sender, counts);
            && Fits(s, k, k2, r, k2.replicas[r], []) && k2.replicas[r].fate == DRAINED
            && k2.replicas[r].view.acks == {} && k2.replicas[r].view.allForwarded == map[]
            && k2.replicas[r].tallies == k.replicas[r].tallies
            && k2.replicas[r].eofs == EofTotals(s.routing,
                 Sum(Sum(k.replicas[r].view.allForwarded, counts), k.replicas[r].view.forwarded))
            && k2.replicas[r].counted == k.replicas[r].counted
  {
    hide Txs, OpenOk, DrainedOk, AcksOk, EofsOk, Evers, Total, TallyOk, PeerOk, AddBatches, FlushedOk, Sum, Applied,
         EofTotals;
    FreshAck(s, k, r, sender, counts);
    var rep := k.replicas[r];
    var b := FlushAckBusiness(s.routing, SiteOf(s, r), rep.view, s.client, sender, counts);
    var next := Handled(s, r, rep, FlushAckIn(sender), b, DRAINED);
    ClosedByAck(SiteOf(s, r), rep.view, s.client, sender, counts);
    OpenNoEofs(s, k, r);
    DrainStamps(s, rep, next);
    assert next.eofs == b.eofs;
  }

  lemma LastAckEofs(s: Setup, k: Cluster, k2: Cluster, r: nat, sender: nat, counts: Counts)
    requires Sensible(s) && Inv(s, k) && Grows(s, k, k2) && r == s.leader
    requires sender !in k.replicas[r].view.acks && FlushedOk(s, k, sender, counts) && k.replicas[r].fate == OPEN
    requires |k.replicas[r].view.acks| + 1 >= s.n - 1 && k2.replicas[r].fate == DRAINED
    requires k2.replicas[r].counted == k.replicas[r].counted
    requires k2.replicas[r].eofs == EofTotals(s.routing,
               Sum(Sum(k.replicas[r].view.allForwarded, counts), k.replicas[r].view.forwarded))
    ensures EofsOk(s, k2, r)
  {
    hide Txs, OpenOk, Evers, Total, TallyOk, Sum, AcksOk, FlushedOk, Routeds, Evolves, CountedOk, DrainedOk;
    var rep := k.replicas[r];
    assert ReplicaOk(s, r, rep);
    hide ReplicaOk;
    AcksStay(s, k, k2, rep, rep);
    PeerStays(s, k, k2, Flushed(sender, counts));
    LastAckTotal(s, k2, rep, sender, counts, "");
    forall l
      ensures Get(Sum(Sum(rep.view.allForwarded, counts), rep.view.forwarded), l, 0) == Total(Routeds(s, k2, l))
    {
      LastAckTotal(s, k2, rep, sender, counts, l);
    }
  }

  lemma AckKeepsLast(s: Setup, k: Cluster, r: nat, sender: nat, counts: Counts)
    requires Sensible(s) && Inv(s, k) && Enabled(s, k, DeliverFlushAck(r, sender, counts))
    requires FlushAckIn(sender) !in k.replicas[r].seen && CountsAcks(k.replicas[r].view)
    requires |k.replicas[r].view.acks| + 1 >= s.n - 1
    ensures Inv(s, OnAck(s, k, r, sender, counts))
  {
    hide ReplicaOk, OnAck, Evers, Total, TallyOk, Sum, AcksOk, Routeds, Evolves, EofsOk, PeerOk, EofTotals;
    var k2 := OnAck(s, k, r, sender, counts);
    FreshAck(s, k, r, sender, counts);
    LastAckFits(s, k, r, sender, counts);
    FitsGrows(s, k, k2, r, k2.replicas[r], []);
    AcksNone(s, k2, k2.replicas[r]);
    TotalGrows(s, k, k2);
    LastAckEofs(s, k, k2, r, sender, counts);
    assert k.replicas[sender].fate == DRAINED;
    InvFrom(s, k, k2, r, k2.replicas[r], []);
  }

  // ---------- runs ----------

  lemma StepKeepsInv(s: Setup, k: Cluster, step: Step)
    requires Sensible(s) && Inv(s, k) && Enabled(s, k, step)
    ensures Inv(s, Next(s, k, step))
  {
    hide Inv;
    match step
    case DeliverBatch(r, i) => BatchKeeps(s, k, r, i);
    case DeliverUpstreamEof => if s.n > 1 { UpstreamKeepsMany(s, k); } else { UpstreamKeepsOne(s, k); }
    case DeliverEofReceived(r, c, forwarded) => AnnouncedKeeps(s, k, r, c, forwarded);
    case DeliverRequest(r, _, forwarded) => RequestKeeps(s, k, r, forwarded);
    case DeliverAnswer(r, c) => AnswerKeeps(s, k, r, c);
    case DeliverFlushOrder(r, c) => OrderKeeps(s, k, r, c);
    case DeliverFlushAck(r, sender, counts) =>
      var rep := k.replicas[r];
      if FlushAckIn(sender) !in rep.seen && CountsAcks(rep.view) {
        if |rep.view.acks| + 1 < s.n - 1 {
          AckKeepsEarly(s, k, r, sender, counts);
        } else {
          AckKeepsLast(s, k, r, sender, counts);
        }
      }
    case DeliverAbort(r) => AbortKeeps(s, k, r);
    case Crash(r, tally) => CrashKeeps(s, k, r, tally);
  }

  /** The state after the steps, if each of them could be taken. */
  ghost function Reached(s: Setup, steps: seq<Step>): Option<Cluster> {
    if steps == [] then Some(Start(s))
    else
      var k := Reached(s, steps[..|steps| - 1]);
      if k.Some? && Enabled(s, k.value, steps[|steps| - 1])
      then Some(Next(s, k.value, steps[|steps| - 1])) else None
  }

  lemma StartInv(s: Setup)
    requires Sensible(s)
    ensures Inv(s, Start(s))
  {
    var k := Start(s);
    assert Shaped(s, k);
    NoneSum(Evers(s, k));
    forall r | 0 <= r < s.n
      ensures AcksOk(s, k, k.replicas[r])
    {
      AcksNone(s, k, k.replicas[r]);
    }
  }

  lemma {:induction false} RunKeepsInv(s: Setup, steps: seq<Step>)
    requires Sensible(s) && Reached(s, steps).Some?
    ensures Inv(s, Reached(s, steps).value)
  {
    hide Inv;
    if steps == [] {
      StartInv(s);
    } else {
      RunKeepsInv(s, steps[..|steps| - 1]);
      StepKeepsInv(s, Reached(s, steps[..|steps| - 1]).value, steps[|steps| - 1]);
    }
  }
}
