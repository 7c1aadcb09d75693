/** No state without an abort is stuck: from each of them the group can still stamp the end of stream. */
module FilterFinish {
  import opened Prelude
  import opened EofCoordination
  import opened FilterStates
  import opened Filters
  import opened Sums
  import opened FilterCluster
  import opened FilterRuns
  import opened FilterTheorems
  import opened FilterProgress
  import opened FilterCompletion

  /** Steps of counting and collecting, which close nothing. */
  predicate Collecting(step: Step) {
    step.DeliverBatch? || step.DeliverUpstreamEof? || step.DeliverEofReceived? || step.DeliverAnswer?
  }

  /** Nothing seen, counted or sent is lost, and no replica has closed in between. */
  ghost predicate Onward(k: Cluster, k2: Cluster) {
    && |k2.replicas| == |k.replicas| && k.net <= k2.net
    && forall r :: 0 <= r < |k.replicas| ==> Kept(k.replicas[r], k2.replicas[r])
  }

  ghost predicate Kept(a: Replica, b: Replica) {
    b.fate == a.fate && a.seen <= b.seen && forall i :: i in a.counted ==> i in b.counted
  }

  lemma StepOnward(s: Setup, k: Cluster, step: Step)
    requires Enabled(s, k, step) && Collecting(step) && s.n > 1
    ensures Onward(k, Next(s, k, step))
  {
    hide DataBusiness, Applied, AddBatches, OnProcessedAnswer, EofReceivedBusiness, UpstreamEofBusiness, ToAll;
  }

  /** The run goes on from `steps` to `more`, closing nothing. */
  ghost predicate Leads(s: Setup, steps: seq<Step>, more: seq<Step>) {
    && Reached(s, steps).Some? && Reached(s, more).Some? && steps <= more
    && Onward(Reached(s, steps).value, Reached(s, more).value)
  }

  lemma GoOn(s: Setup, start: seq<Step>, steps: seq<Step>, step: Step)
    requires Leads(s, start, steps) && Enabled(s, Reached(s, steps).value, step) && Collecting(step) && s.n > 1
    ensures Leads(s, start, steps + [step])
    ensures Reached(s, steps + [step]) == Some(Next(s, Reached(s, steps).value, step))
  {
    hide Next, Enabled, Reached;
    OneMore(s, steps, step);
    StepOnward(s, Reached(s, steps).value, step);
  }

  lemma Stay(s: Setup, steps: seq<Step>)
    requires Reached(s, steps).Some?
    ensures Leads(s, steps, steps)
  {
  }

  ghost predicate AllOpen(s: Setup, k: Cluster) {
    s.leader < s.n == |k.replicas| && forall r :: 0 <= r < s.n ==> k.replicas[r].fate == OPEN
  }

  // ---------- counting and announcing ----------

  lemma CountedThere(s: Setup, k: Cluster, i: nat)
    requires Inv(s, k) && Chain(s, k) && AllOpen(s, k) && i < |s.upstream|
    ensures i in OnBatch(s, k, s.leader, i).replicas[s.leader].counted
  {
    hide OpenOk, DrainedOk, CountedOk, LeadsOk, AcksOk, EofsOk, TallyOk, PeerOk, DataBusiness, Handled;
    assert ReplicaOk(s, s.leader, k.replicas[s.leader]) && Joined(s, k.net, s.leader, k.replicas[s.leader]);
  }

  /** The leader counts every batch below `b`. */
  lemma {:induction false} CountAll(s: Setup, steps: seq<Step>, b: nat) returns (more: seq<Step>)
    requires Sensible(s) && s.n > 1 && Reached(s, steps).Some? && AllOpen(s, Reached(s, steps).value)
    requires b <= |s.upstream|
    ensures Leads(s, steps, more)
    ensures forall i :: 0 <= i < b ==> i in Reached(s, more).value.replicas[s.leader].counted
  {
    hide Reached, Next, Inv, Chain;
    if b == 0 {
      Stay(s, steps);
      more := steps;
    } else {
      var before := CountAll(s, steps, b - 1);
      var k, step := Reached(s, before).value, DeliverBatch(s.leader, b - 1);
      GoOn(s, steps, before, step);
      RunKeepsInv(s, before);
      RunKeepsChain(s, before);
      CountedThere(s, k, b - 1);
      StepOnward(s, k, step);
      assert Next(s, k, step) == OnBatch(s, k, s.leader, b - 1) by { BatchNext(s, k, b - 1); }
      more := before + [step];
    }
  }

  lemma BatchNext(s: Setup, k: Cluster, i: nat)
    requires Enabled(s, k, DeliverBatch(s.leader, i))
    ensures Next(s, k, DeliverBatch(s.leader, i)) == OnBatch(s, k, s.leader, i)
  {
    hide OnBatch;
  }

  lemma UpstreamSeen(s: Setup, k: Cluster)
    requires Inv(s, k) && AllOpen(s, k)
    ensures UpstreamEofIn in OnUpstream(s, k).replicas[s.leader].seen
  {
    hide OpenOk, DrainedOk, CountedOk, LeadsOk, AcksOk, EofsOk, TallyOk, PeerOk, UpstreamEofBusiness, Applied,
         AddBatches;
    assert ReplicaOk(s, s.leader, k.replicas[s.leader]);
  }

  lemma AnnouncementSeen(s: Setup, k: Cluster, r: nat)
    requires r < |k.replicas|
    ensures EofReceivedIn(s.leader) in OnAnnounced(s, k, r, Announcement(s).message.control, 0).replicas[r].seen
  {
    hide EofReceivedBusiness, Applied, AddBatches;
  }

  /** The end of stream is announced to the first `q`. */
  lemma {:induction false} AnnounceAll(s: Setup, steps: seq<Step>, q: nat) returns (more: seq<Step>)
    requires Sensible(s) && s.n > 1 && Reached(s, steps).Some? && AllOpen(s, Reached(s, steps).value) && q <= s.n
    ensures Leads(s, steps, more) && UpstreamEofIn in Reached(s, more).value.replicas[s.leader].seen
    ensures forall r :: 0 <= r < q ==> EofReceivedIn(s.leader) in Reached(s, more).value.replicas[r].seen
  {
    hide Reached, Inv, Chain, OnUpstream, OnAnnounced;
    if q == 0 {
      Stay(s, steps);
      RunKeepsInv(s, steps);
      UpstreamSeen(s, Reached(s, steps).value);
      GoOn(s, steps, steps, DeliverUpstreamEof);
      more := steps + [DeliverUpstreamEof];
    } else {
      var before := AnnounceAll(s, steps, q - 1);
      var k, step := Reached(s, before).value, DeliverEofReceived(q - 1, Announcement(s).message.control, 0);
      RunKeepsChain(s, before);
      assert (q - 1, Announcement(s)) in k.net by { AnnouncedToEach(s, k); }
      AnnouncementSeen(s, k, q - 1);
      GoOn(s, steps, before, step);
      StepOnward(s, k, step);
      more := before + [step];
    }
  }

  lemma AnnouncedToEach(s: Setup, k: Cluster)
    requires Chain(s, k) && UpstreamEofIn in k.replicas[s.leader].seen
    ensures ToEach(s, k.net, Announcement(s))
  {
  }

  // ---------- the round under way, and one more ----------

  function Request(s: Setup): Peer { Ctrl(Message(PROCESSED_REQUEST, Control(s.leader, s.total, 0))) }

  /** The round under way is over: the flush is ordered, or everybody is asked again from an empty tally. */
  ghost predicate RoundOver(s: Setup, k: Cluster) {
    && s.leader < |k.replicas|
    && (ToEach(s, k.net, Order(s)) ||
        (ToEach(s, k.net, Request(s)) && TallyOf(k.replicas[s.leader].view) == ({}, 0)))
  }

  lemma AnswerEffect(s: Setup, k: Cluster, c: Control)
    requires Inv(s, k) && AllOpen(s, k) && s.n > 1 && UpstreamEofIn in k.replicas[s.leader].seen
    ensures var k2, before := OnAnswer(s, k, s.leader, c), k.replicas[s.leader].view.coord.responders;
            || RoundOver(s, k2)
            || k2.replicas[s.leader].view.coord.responders == before + {c.sender}
  {
    hide OpenOk, DrainedOk, CountedOk, AcksOk, EofsOk, TallyOk, PeerOk, ToAll;
    var rep := k.replicas[s.leader];
    assert ReplicaOk(s, s.leader, rep);
    hide ReplicaOk;
    var o := OnProcessedAnswer(s.leader, s.n, rep.view.coord, c);
    var who := rep.view.coord.responders;
    assert c.sender in who ==> who + {c.sender} == who;
    if o.action.Broadcast? { ToAllReaches(s, k, s.leader, WithCoord(rep, o.state), o.action.message); }
    hide ToEach;
  }

  /** Everybody has been asked at least once. */
  ghost predicate Announced(s: Setup, k: Cluster) {
    && AllOpen(s, k) && UpstreamEofIn in k.replicas[s.leader].seen
    && forall r :: 0 <= r < s.n ==> EofReceivedIn(s.leader) in k.replicas[r].seen
  }

  lemma AnnouncedOn(s: Setup, k: Cluster, k2: Cluster)
    requires Announced(s, k) && Onward(k, k2)
    ensures Announced(s, k2)
  {
  }

  /** Delivering the answers of the first `q` replicas ends the round under way, or the leader has all of them. */
  lemma {:induction false} EndRound(s: Setup, steps: seq<Step>, q: nat) returns (more: seq<Step>)
    requires Sensible(s) && s.n > 1 && Reached(s, steps).Some? && Announced(s, Reached(s, steps).value) && q <= s.n
    ensures Leads(s, steps, more)
    ensures var k := Reached(s, more).value;
            RoundOver(s, k) || (s.leader < |k.replicas| && Ids(q) <= k.replicas[s.leader].view.coord.responders)
  {
    hide Reached, Inv, Chain, OnAnswer, RoundOver, Announced, Onward;
    if q == 0 {
      Stay(s, steps);
      more := steps;
      assert s.leader < |Reached(s, steps).value.replicas| by { OpenLeader(s, Reached(s, steps).value); }
    } else {
      more := EndRound(s, steps, q - 1);
      var k := Reached(s, more).value;
      if !RoundOver(s, k) {
        AnnouncedOn(s, Reached(s, steps).value, k);
        RunKeepsInv(s, more);
        RunKeepsChain(s, more);
        var c := SomeAnswer(s, k, q - 1);
        AnswerEffect(s, k, c);
        GoOn(s, steps, more, DeliverAnswer(s.leader, c));
        more := more + [DeliverAnswer(s.leader, c)];
        var k2 := Reached(s, more).value;
        assert s.leader < |k2.replicas| by {
          AnnouncedOn(s, Reached(s, steps).value, k2);
          OpenLeader(s, k2);
        }
      }
    }
  }

  lemma OpenLeader(s: Setup, k: Cluster)
    requires Announced(s, k)
    ensures s.leader < s.n == |k.replicas| && AllOpen(s, k) && UpstreamEofIn in k.replicas[s.leader].seen
  {
  }

  lemma SomeAnswer(s: Setup, k: Cluster, r: nat) returns (c: Control)
    requires Chain(s, k) && Announced(s, k) && r < s.n
    ensures c.sender == r && (s.leader, Ctrl(Message(PROCESSED_ANSWER, c))) in k.net
    ensures AllOpen(s, k) && UpstreamEofIn in k.replicas[s.leader].seen
  {
    assert Joined(s, k.net, r, k.replicas[r]);
    c :| c.sender == r && (s.leader, Ctrl(Message(PROCESSED_ANSWER, c))) in k.net;
  }

  lemma LeaderNotFull(s: Setup, k: Cluster)
    requires Inv(s, k) && Chain(s, k) && Announced(s, k)
    ensures !(Ids(s.n) <= k.replicas[s.leader].view.coord.responders)
  {
    hide OpenOk, DrainedOk, CountedOk, LeadsOk, AcksOk, EofsOk, PeerOk, Joined, Sent;
    var rep := k.replicas[s.leader];
    assert ReplicaOk(s, s.leader, rep) && TallyOk(s, k, TallyOf(rep.view));
    if Ids(s.n) <= rep.view.coord.responders {
      Fewer(Ids(s.n), rep.view.coord.responders);
    }
  }

  lemma AllCountedCounts(s: Setup, k: Cluster)
    requires Inv(s, k) && AllOpen(s, k)
    requires forall i :: 0 <= i < |s.upstream| ==> i in k.replicas[s.leader].counted
    ensures Total(Sizes(s)) <= Total(Reports(s, k))
  {
    hide ReplicaOk, SumOver, AcksOk, EofsOk, PeerOk, TallyOk;
    var counted := AsSet(k.replicas[s.leader].counted);
    CountedByReplica(s, k, s.leader, "");
    SumEqual(Sizes(s), Sizes(s), counted, Ids(|s.upstream|));
    var v, others := Reports(s, k), Ids(s.n) - {s.leader};
    SumInsert(v, others, s.leader);
    assert others + {s.leader} == Ids(s.n);
  }

  lemma ReadyToAsk(s: Setup, k: Cluster)
    requires Chain(s, k) && Announced(s, k) && RoundOver(s, k) && s.n > 1 && !ToEach(s, k.net, Order(s))
    ensures Asking(s, k, Control(s.leader, s.total, 0))
  {
    hide Leading, Sent, ToEach;
    forall r | 0 <= r < s.n ensures k.replicas[r].view.coord.pending.Some? {
      assert Joined(s, k.net, r, k.replicas[r]);
    }
  }

  ghost predicate Unaborted(k: Cluster) {
    forall r :: 0 <= r < |k.replicas| ==> k.replicas[r].fate != ABORTED
  }

  /** From open replicas to the flush order. */
  lemma ReachOrder(s: Setup, steps: seq<Step>) returns (more: seq<Step>)
    requires Sensible(s) && s.n > 1 && Reached(s, steps).Some? && AllOpen(s, Reached(s, steps).value)
    requires s.total <= Total(Sizes(s))
    ensures steps <= more && Reached(s, more).Some? && Unaborted(Reached(s, more).value)
    ensures ToEach(s, Reached(s, more).value.net, Order(s))
  {
    hide Reached, Inv, Chain, RoundOver, Total, Reports;
    var counting := CountAll(s, steps, |s.upstream|);
    var announcing := AnnounceAll(s, counting, s.n);
    var k1 := Reached(s, announcing).value;
    assert Announced(s, k1);
    more := EndRound(s, announcing, s.n);
    var k := Reached(s, more).value;
    AnnouncedOn(s, k1, k);
    RunKeepsInv(s, more);
    RunKeepsChain(s, more);
    LeaderNotFull(s, k);
    if !ToEach(s, k.net, Order(s)) {
      AllCountedCounts(s, k);
      ReadyToAsk(s, k);
      more := LastRound(s, more);
    }
  }

  lemma LastRound(s: Setup, steps: seq<Step>) returns (more: seq<Step>)
    requires Sensible(s) && Reached(s, steps).Some? && Asking(s, Reached(s, steps).value, Control(s.leader, s.total, 0))
    requires s.total <= Total(Reports(s, Reached(s, steps).value)) && Unaborted(Reached(s, steps).value)
    ensures steps <= more && Reached(s, more).Some? && Unaborted(Reached(s, more).value)
    ensures ToEach(s, Reached(s, more).value.net, Order(s))
  {
    hide Reached, Total, Asking;
    var k, c := Reached(s, steps).value, Control(s.leader, s.total, 0);
    RoundDecides(s, steps, c);
    var asked := Reached(s, steps + Requests(c, s.n)).value;
    assert Reports(s, asked) == Reports(s, k);
    hide Reports;
    more := steps + Requests(c, s.n) + Answers(s, Reports(s, k));
    forall q | 0 <= q < s.n ensures (q, Order(s)) in Reached(s, more).value.net {
      assert (q, Order(s)) in Everyone(s.n, Order(s));
    }
  }

  // ---------- draining ----------

  lemma OneDrains(s: Setup, k: Cluster, r: nat)
    requires Inv(s, k) && Chain(s, k) && r < s.n && r != s.leader && k.replicas[r].fate == OPEN
    ensures OnOrder(s, k, r, Order(s).message.control).replicas[r].fate == DRAINED
  {
    hide OpenOk, DrainedOk, CountedOk, AcksOk, EofsOk, TallyOk, PeerOk, FlushOrderBusiness, Applied, AddBatches;
    assert ReplicaOk(s, r, k.replicas[r]) && Joined(s, k.net, r, k.replicas[r]);
  }

  /** Whoever has drained stays so, and nobody aborts. */
  lemma ClosingStep(s: Setup, k: Cluster, step: Step)
    requires Enabled(s, k, step) && (step.DeliverFlushOrder? || step.DeliverFlushAck?) && Unaborted(k)
    ensures var k2 := Next(s, k, step);
            && Unaborted(k2) && |k2.replicas| == |k.replicas| && k.net <= k2.net
            && forall r :: 0 <= r < |k.replicas| && k.replicas[r].fate == DRAINED ==> k2.replicas[r].fate == DRAINED
  {
    hide FlushOrderBusiness, FlushAckBusiness, Applied, AddBatches;
  }

  lemma {:induction false} DrainAll(s: Setup, steps: seq<Step>, q: nat) returns (more: seq<Step>)
    requires Sensible(s) && s.n > 1 && Reached(s, steps).Some? && q <= s.n
    requires Unaborted(Reached(s, steps).value) && ToEach(s, Reached(s, steps).value.net, Order(s))
    ensures steps <= more && Reached(s, more).Some? && |Reached(s, more).value.replicas| == s.n
    ensures Unaborted(Reached(s, more).value) && ToEach(s, Reached(s, more).value.net, Order(s))
    ensures forall r :: 0 <= r < q && r != s.leader ==> Reached(s, more).value.replicas[r].fate == DRAINED
  {
    hide Reached, Inv, OnOrder;
    if q == 0 {
      more := steps;
      RunKeepsChain(s, steps);
    } else {
      more := DrainAll(s, steps, q - 1);
      var k := Reached(s, more).value;
      if q - 1 != s.leader && k.replicas[q - 1].fate == OPEN {
        var step := DeliverFlushOrder(q - 1, Order(s).message.control);
        RunKeepsInv(s, more);
        RunKeepsChain(s, more);
        OneDrains(s, k, q - 1);
        ClosingStep(s, k, step);
        OneMore(s, more, step);
        more := more + [step];
      }
    }
  }

  ghost predicate OthersDrained(s: Setup, k: Cluster) {
    && s.leader < s.n == |k.replicas| && Unaborted(k)
    && forall r :: 0 <= r < s.n && r != s.leader ==> k.replicas[r].fate == DRAINED
  }

  lemma AckCounts(s: Setup, k: Cluster, r: nat, counts: Counts)
    requires Inv(s, k) && Chain(s, k) && r < s.n && r != s.leader && k.replicas[s.leader].fate == OPEN
    requires k.replicas[r].fate == DRAINED && UpstreamEofIn in k.replicas[s.leader].seen
    ensures var next := OnAck(s, k, s.leader, r, counts).replicas[s.leader];
            next.fate == DRAINED || next.view.acks == k.replicas[s.leader].view.acks + {r}
  {
    hide OpenOk, DrainedOk, CountedOk, AcksOk, EofsOk, TallyOk, PeerOk, Joined, Sent, AddBatches, Sum, Routeds;
    assert ReplicaOk(s, s.leader, k.replicas[s.leader]);
    hide ReplicaOk;
  }

  lemma AckKeeps(s: Setup, k: Cluster, k2: Cluster)
    requires OthersDrained(s, k) && Unaborted(k2) && |k2.replicas| == |k.replicas|
    requires forall r :: 0 <= r < |k.replicas| && k.replicas[r].fate == DRAINED ==> k2.replicas[r].fate == DRAINED
    ensures OthersDrained(s, k2)
  {
  }

  /** The acknowledgements of the first `q` replicas are counted, or the leader has closed. */
  lemma {:induction false} AckAll(s: Setup, steps: seq<Step>, q: nat) returns (more: seq<Step>)
    requires Sensible(s) && s.n > 1 && Reached(s, steps).Some? && OthersDrained(s, Reached(s, steps).value) && q <= s.n
    ensures steps <= more && Reached(s, more).Some? && OthersDrained(s, Reached(s, more).value)
    ensures var rep := Reached(s, more).value.replicas[s.leader];
            rep.fate == DRAINED || forall r :: 0 <= r < q && r != s.leader ==> r in rep.view.acks
  {
    hide Reached, Inv, OnAck, Chain;
    if q == 0 {
      more := steps;
    } else {
      more := AckAll(s, steps, q - 1);
      var k := Reached(s, more).value;
      if k.replicas[s.leader].fate == OPEN && q - 1 != s.leader {
        RunKeepsInv(s, more);
        RunKeepsChain(s, more);
        var counts := SomeAck(s, k, q - 1);
        var step := DeliverFlushAck(s.leader, q - 1, counts);
        AckCounts(s, k, q - 1, counts);
        ClosingStep(s, k, step);
        OneMore(s, more, step);
        more := more + [step];
        AckKeeps(s, k, Reached(s, more).value);
      }
    }
  }

  lemma SomeAck(s: Setup, k: Cluster, r: nat) returns (counts: Counts)
    requires Inv(s, k) && Chain(s, k) && OthersDrained(s, k) && r < s.n && r != s.leader
    ensures (s.leader, Flushed(r, counts)) in k.net && UpstreamEofIn in k.replicas[s.leader].seen
  {
    hide ReplicaOk, AcksOk, EofsOk, TallyOk, Leading, Sent;
    assert Joined(s, k.net, r, k.replicas[r]);
    counts :| (s.leader, Flushed(r, counts)) in k.net;
    assert (r, Order(s)) in k.net && PeerOk(s, k, Order(s));
  }

  lemma LeaderCloses(s: Setup, k: Cluster)
    requires Inv(s, k) && Chain(s, k) && OthersDrained(s, k) && s.n > 1
    requires forall r :: 0 <= r < s.n && r != s.leader ==> r in k.replicas[s.leader].view.acks
    ensures k.replicas[s.leader].fate == DRAINED
  {
    hide ReplicaOk, AcksOk, EofsOk, TallyOk, PeerOk, Joined, Sent;
    assert AcksOk(s, k, k.replicas[s.leader]);
    var acks, others := k.replicas[s.leader].view.acks, Ids(s.n) - {s.leader};
    assert |others| == s.n - 1 && others <= acks;
    Fewer(others, acks);
  }

  lemma Fewer(a: set<nat>, b: set<nat>)
    requires a <= b
    ensures |a| <= |b|
  {
    assert |b - a| == |b| - |a|;
  }

  // ---------- the end ----------

  /** Every replica has drained, and the leader has stamped the end of stream for each destination with the total of
      what all replicas counted for it. */
  ghost predicate Finished(s: Setup, k: Cluster) {
    && Sensible(s) && Shaped(s, k)
    && (forall r :: 0 <= r < s.n ==> k.replicas[r].fate == DRAINED)
    && k.replicas[s.leader].eofs == seq(|s.routing.dests|, i requires 0 <= i < |s.routing.dests| =>
         (s.routing.dests[i], Total(Routeds(s, k, s.routing.logicalOf(s.routing.dests[i])))))
  }

  lemma AllDone(s: Setup, k: Cluster)
    requires Sensible(s) && Inv(s, k) && (forall r :: 0 <= r < s.n ==> k.replicas[r].fate == DRAINED)
    requires |k.replicas[s.leader].eofs| == |s.routing.dests|
    ensures Finished(s, k)
  {
    hide ReplicaOk, AcksOk, TallyOk, PeerOk, Total, Routeds;
    assert EofsOk(s, k, s.leader);
  }

  lemma FinishOrdered(s: Setup, steps: seq<Step>) returns (more: seq<Step>)
    requires Sensible(s) && s.n > 1 && Reached(s, steps).Some?
    requires Unaborted(Reached(s, steps).value) && ToEach(s, Reached(s, steps).value.net, Order(s))
    ensures steps <= more && Reached(s, more).Some? && Finished(s, Reached(s, more).value)
  {
    hide Reached, Inv, Chain, Finished;
    var drained := DrainAll(s, steps, s.n);
    more := AckAll(s, drained, s.n);
    var k := Reached(s, more).value;
    RunKeepsInv(s, more);
    RunKeepsChain(s, more);
    if k.replicas[s.leader].fate != DRAINED { LeaderCloses(s, k); }
    assert |k.replicas[s.leader].eofs| == |s.routing.dests| by { ClosedStamped(s, k); }
    AllDone(s, k);
  }

  lemma ClosedStamped(s: Setup, k: Cluster)
    requires Chain(s, k) && k.replicas[s.leader].fate == DRAINED
    ensures |k.replicas[s.leader].eofs| == |s.routing.dests|
  {
  }

  lemma {:induction false} SingleStamped(s: Setup, steps: seq<Step>)
    requires Sensible(s) && s.n == 1 && Reached(s, steps).Some? && Reached(s, steps).value.replicas[0].fate == DRAINED
    ensures |Reached(s, steps).value.replicas[0].eofs| == |s.routing.dests|
  {
    if steps != [] {
      var init, step := steps[..|steps| - 1], steps[|steps| - 1];
      RunKeepsInv(s, init);
      var k := Reached(s, init).value;
      SingleStep(s, k, step);
      if k.replicas[0].fate == DRAINED { SingleStamped(s, init); }
    }
  }

  /** Counting and collecting stamp no end of stream. */
  lemma StampsNothing(s: Setup, k: Cluster, step: Step, r: nat)
    requires Enabled(s, k, step) && r < s.n
    requires step.DeliverBatch? || step.DeliverEofReceived? || step.DeliverRequest? || step.DeliverAnswer? ||
             step.Crash?
    ensures var a, b := k.replicas[r], Next(s, k, step).replicas[r]; b.fate == a.fate && b.eofs == a.eofs
  {
    hide Applied, AddBatches, OnProcessedAnswer, OnProcessedRequest, AppendsOf, CountsOf, ToAll;
  }

  lemma SingleStep(s: Setup, k: Cluster, step: Step)
    requires Sensible(s) && s.n == 1 && Inv(s, k) && Enabled(s, k, step)
    ensures var a, b := k.replicas[0], Next(s, k, step).replicas[0];
            || (b.fate == a.fate && b.eofs == a.eofs) || b.fate == ABORTED
            || (b.fate == DRAINED && |b.eofs| == |s.routing.dests|)
  {
    InvAt(s, k, 0);
    if k.replicas[0].fate == OPEN { OpenNoEofs(s, k, 0); }
    match step
    case DeliverUpstreamEof => hide Inv, Applied, AddBatches;
    case DeliverAbort(_) => hide Inv, Applied, AddBatches;
    case DeliverFlushOrder(_, _) => SingleQuiet(s, k, step);
    case DeliverFlushAck(_, _, _) => SingleQuiet(s, k, step);
    case _ =>
      hide Inv, Next;
      StampsNothing(s, k, step, 0);
  }

  /** A single replica gets no flush order and no acknowledgement. */
  lemma SingleQuiet(s: Setup, k: Cluster, step: Step)
    requires Sensible(s) && s.n == 1 && Inv(s, k) && (step.DeliverFlushOrder? || step.DeliverFlushAck?)
    ensures !Enabled(s, k, step)
  {
    hide ReplicaOk, AcksOk, EofsOk, TallyOk;
  }

  /** From every reachable state without an abort, whatever was delivered, repeated, reordered or lost in crashes, the
      group can go on to the end of stream, if the announced total is not above what there is to count. */
  lemma CanFinish(s: Setup, steps: seq<Step>) returns (more: seq<Step>)
    requires Sensible(s) && Reached(s, steps).Some? && Unaborted(Reached(s, steps).value)
    requires s.total <= Total(Sizes(s))
    ensures steps <= more && Reached(s, more).Some? && Finished(s, Reached(s, more).value)
  {
    hide Reached, Inv, Chain, Finished, Total;
    var k := Reached(s, steps).value;
    RunKeepsInv(s, steps);
    assert |k.replicas| == s.n by { InvSize(s, k); }
    if s.n == 1 {
      more := FinishSingle(s, steps);
    } else {
      RunKeepsChain(s, steps);
      if ToEach(s, k.net, Order(s)) {
        more := FinishOrdered(s, steps);
      } else {
        forall r | 0 <= r < s.n ensures k.replicas[r].fate == OPEN {
          DrainedOrdered(s, k, r);
        }
        var ordered := ReachOrder(s, steps);
        more := FinishOrdered(s, ordered);
      }
    }
  }

  lemma InvSize(s: Setup, k: Cluster)
    requires Inv(s, k)
    ensures |k.replicas| == s.n
  {
  }

  lemma DrainedOrdered(s: Setup, k: Cluster, r: nat)
    requires Chain(s, k) && r < s.n
    ensures k.replicas[r].fate == DRAINED ==> ToEach(s, k.net, Order(s))
  {
    assert Joined(s, k.net, r, k.replicas[r]);
  }

  lemma FinishSingle(s: Setup, steps: seq<Step>) returns (more: seq<Step>)
    requires Sensible(s) && s.n == 1 && Reached(s, steps).Some? && Unaborted(Reached(s, steps).value)
    ensures steps <= more && Reached(s, more).Some? && Finished(s, Reached(s, more).value)
  {
    hide Reached, Finished, Inv;
    more := steps;
    RunKeepsInv(s, steps);
    var k := Reached(s, steps).value;
    InvSize(s, k);
    if k.replicas[0].fate == OPEN {
      UpstreamCloses(s, k);
      OneMore(s, steps, DeliverUpstreamEof);
      more := steps + [DeliverUpstreamEof];
      RunKeepsInv(s, more);
    }
    InvSize(s, Reached(s, more).value);
    SingleStamped(s, more);
    AllDone(s, Reached(s, more).value);
  }

  lemma UpstreamCloses(s: Setup, k: Cluster)
    requires Sensible(s) && s.n == 1 && Inv(s, k) && k.replicas[0].fate == OPEN
    ensures Enabled(s, k, DeliverUpstreamEof) && Next(s, k, DeliverUpstreamEof).replicas[0].fate == DRAINED
  {
    hide OpenOk, DrainedOk, CountedOk, AcksOk, EofsOk, TallyOk, PeerOk, UpstreamEofBusiness, Applied, AddBatches;
    assert ReplicaOk(s, 0, k.replicas[0]);
  }
}
