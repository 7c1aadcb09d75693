/** What is never lost on the way to the end of stream, so that a group can always finish. */
module FilterProgress {
  import opened Prelude
  import opened EofCoordination
  import opened FilterStates
  import opened Filters
  import opened FilterCluster
  import opened FilterRuns

  function Announcement(s: Setup): Peer { Ctrl(Message(EOF_RECEIVED, Control(s.leader, s.total, 0))) }

  function Order(s: Setup): Peer { Ctrl(Message(FLUSH_ORDER, Control(s.leader, 0, 0))) }

  ghost predicate ToEach(s: Setup, net: set<(nat, Peer)>, p: Peer) {
    forall q :: 0 <= q < s.n ==> (q, p) in net
  }

  ghost predicate HasAnswered(s: Setup, net: set<(nat, Peer)>, r: nat) {
    exists c: Control :: c.sender == r && (s.leader, Ctrl(Message(PROCESSED_ANSWER, c))) in net
  }

  ghost predicate HasFlushed(s: Setup, net: set<(nat, Peer)>, r: nat) {
    exists counts :: (s.leader, Flushed(r, counts)) in net
  }

  /** What a replica has seen shows on the network and in its state. */
  ghost predicate Joined(s: Setup, net: set<(nat, Peer)>, r: nat, rep: Replica) {
    var pending, asked := rep.view.coord.pending, EofReceivedIn(s.leader) in rep.seen;
    && (pending.Some? ==> pending.value.1 == s.leader && asked)
    && (asked ==> HasAnswered(s, net, r))
    && (rep.fate == OPEN ==>
          && (asked ==> pending.Some?) && FlushOrderIn(s.leader) !in rep.seen
          && forall i :: BatchIn(i) in rep.seen ==> i in rep.counted)
    && (rep.fate == DRAINED ==> ToEach(s, net, Order(s)) && (r != s.leader ==> HasFlushed(s, net, r)))
  }

  /** The leader announces to all, counts every acknowledgement it takes and closes with the last one. */
  ghost predicate Leading(s: Setup, net: set<(nat, Peer)>, rep: Replica) {
    && (UpstreamEofIn in rep.seen ==> ToEach(s, net, Announcement(s)))
    && (rep.fate == OPEN ==>
          && (forall q :: FlushAckIn(q) in rep.seen ==> q in rep.view.acks) && |rep.view.acks| < s.n - 1
          && forall t :: t in rep.tallies ==> |t.0| < s.n)
    && (rep.fate == DRAINED ==> |rep.eofs| == |s.routing.dests|)
  }

  /** Control messages come from the leader, after the upstream end of stream, and a flush order goes to all. */
  ghost predicate Sent(s: Setup, net: set<(nat, Peer)>, leader: Replica, p: Peer) {
    p.Ctrl? ==>
      && (p.message.kind == EOF_RECEIVED ==> p == Announcement(s))
      && (p.message.kind == FLUSH_ORDER ==> p == Order(s) && ToEach(s, net, p))
      && (p.message.kind == EOF_RECEIVED || p.message.kind == PROCESSED_ANSWER ==> UpstreamEofIn in leader.seen)
  }

  ghost predicate Chain(s: Setup, k: Cluster) {
    && s.leader < s.n == |k.replicas|
    && (forall r :: 0 <= r < s.n ==> Joined(s, k.net, r, k.replicas[r]))
    && Leading(s, k.net, k.replicas[s.leader])
    && (k.replicas[s.leader].fate == DRAINED ==> forall r :: 0 <= r < s.n ==> k.replicas[r].fate == DRAINED)
    && forall m :: m in k.net ==> Sent(s, k.net, k.replicas[s.leader], m.1)
  }

  lemma JoinedMore(s: Setup, net: set<(nat, Peer)>, more: set<(nat, Peer)>, r: nat, rep: Replica)
    requires Joined(s, net, r, rep) && net <= more
    ensures Joined(s, more, r, rep)
  {
  }

  lemma SentMore(s: Setup, net: set<(nat, Peer)>, more: set<(nat, Peer)>, a: Replica, b: Replica, p: Peer)
    requires Sent(s, net, a, p) && net <= more && a.seen <= b.seen
    ensures Sent(s, more, b, p)
  {
  }

  lemma LeadingMore(s: Setup, net: set<(nat, Peer)>, more: set<(nat, Peer)>, rep: Replica)
    requires Leading(s, net, rep) && net <= more
    ensures Leading(s, more, rep)
  {
  }

  /** One replica moves on and sends messages. */
  lemma ChainFrom(s: Setup, k: Cluster, r: nat, next: Replica, messages: seq<(nat, Peer)>)
    requires Chain(s, k) && r < s.n && k.replicas[r].seen <= next.seen
    requires k.replicas[r].fate == DRAINED ==> next.fate == DRAINED
    requires var k2 := Put(k, r, next, messages);
             && Joined(s, k2.net, r, next)
             && (r == s.leader ==>
                   && Leading(s, k2.net, next)
                   && (next.fate == DRAINED ==> forall q :: 0 <= q < s.n && q != r ==> k.replicas[q].fate == DRAINED))
             && forall m :: m in messages ==> Sent(s, k2.net, k2.replicas[s.leader], m.1)
    ensures Chain(s, Put(k, r, next, messages))
  {
    hide Joined, Leading, Sent;
    var k2 := Put(k, r, next, messages);
    forall q | 0 <= q < s.n ensures Joined(s, k2.net, q, k2.replicas[q]) {
      if q != r { JoinedMore(s, k.net, k2.net, q, k.replicas[q]); }
    }
    if r != s.leader { LeadingMore(s, k.net, k2.net, k.replicas[s.leader]); }
    forall m | m in k2.net ensures Sent(s, k2.net, k2.replicas[s.leader], m.1) {
      if m in k.net { SentMore(s, k.net, k2.net, k.replicas[s.leader], k2.replicas[s.leader], m.1); }
    }
  }

  /** The part of the chain at one replica. */
  lemma ChainAt(s: Setup, k: Cluster, r: nat)
    requires Chain(s, k) && r < s.n
    ensures s.leader < s.n == |k.replicas| && Joined(s, k.net, r, k.replicas[r])
    ensures Leading(s, k.net, k.replicas[s.leader])
    ensures k.replicas[s.leader].fate == DRAINED ==> forall q :: 0 <= q < s.n ==> k.replicas[q].fate == DRAINED
  {
    hide Joined, Leading, Sent;
  }

  lemma InvAt(s: Setup, k: Cluster, r: nat)
    requires Inv(s, k) && r < s.n
    ensures |k.replicas| == s.n && (k.replicas[r].view.closed <==> k.replicas[r].fate != OPEN)
    ensures TallyOf(k.replicas[r].view) in k.replicas[r].tallies
    ensures var c, rep := k.replicas[r].view.coord, k.replicas[r];
            && (c.expected.Some? ==> r == s.leader && c.expected == Some(s.total))
            && (rep.fate == OPEN && UpstreamEofIn in rep.seen ==> c.expected.Some?)
  {
    hide OpenOk, DrainedOk, CountedOk, AcksOk, EofsOk, TallyOk, PeerOk, Forgotten;
    assert ReplicaOk(s, r, k.replicas[r]);
  }

  lemma BatchNext(s: Setup, k: Cluster, r: nat, i: nat) returns (next: Replica)
    requires r < |k.replicas| && i < |s.upstream| && BatchIn(i) !in k.replicas[r].seen
    ensures OnBatch(s, k, r, i) == Put(k, r, next, [])
    ensures var rep := k.replicas[r];
            && next.seen == rep.seen + {BatchIn(i)} && next.fate == rep.fate && next.eofs == rep.eofs
            && next.counted == (if rep.view.closed then rep.counted else rep.counted + [i])
            && next.tallies == rep.tallies && next.view.acks == rep.view.acks
            && next.view.coord.pending == rep.view.coord.pending
  {
    var rep := k.replicas[r];
    BatchFrame(s, r, rep, i);
    next := WithBatch(s, r, rep, i);
    hide DataBusiness, Applied, AddBatches;
  }

  lemma BatchChain(s: Setup, k: Cluster, r: nat, i: nat)
    requires Inv(s, k) && Chain(s, k) && Enabled(s, k, DeliverBatch(r, i))
    ensures Chain(s, OnBatch(s, k, r, i))
  {
    var rep := k.replicas[r];
    if BatchIn(i) !in rep.seen {
      hide OnBatch, Inv, Chain, Joined, Leading;
      InvAt(s, k, r);
      ChainAt(s, k, r);
      var next := BatchNext(s, k, r, i);
      assert Put(k, r, next, []).net == k.net;
      JoinedAs(s, k.net, r, rep, next);
      if r == s.leader { LeadingAs(s, k.net, rep, next); }
      hide ToEach;
      ChainFrom(s, k, r, next, []);
    }
  }

  lemma ToAllReaches(s: Setup, k: Cluster, r: nat, next: Replica, m: Message)
    requires r < |k.replicas|
    ensures ToEach(s, Put(k, r, next, ToAll(s.n, m)).net, Ctrl(m))
    ensures forall x :: x in ToAll(s.n, m) ==> x.1 == Ctrl(m)
  {
    var all := ToAll(s.n, m);
    forall q | 0 <= q < s.n ensures (q, Ctrl(m)) in all {
      assert all[q] == (q, Ctrl(m));
    }
  }

  lemma UpstreamNext(s: Setup, k: Cluster) returns (next: Replica)
    requires s.n > 1 && s.leader < |k.replicas|
    requires UpstreamEofIn !in k.replicas[s.leader].seen && !k.replicas[s.leader].view.closed
    ensures OnUpstream(s, k) == Put(k, s.leader, next, ToAll(s.n, Announcement(s).message))
    ensures var rep := k.replicas[s.leader];
            && next.seen == rep.seen + {UpstreamEofIn} && next.fate == rep.fate && next.counted == rep.counted
            && next.eofs == rep.eofs && next.tallies == rep.tallies && next.view.acks == rep.view.acks
            && next.view.coord.pending == rep.view.coord.pending
  {
    hide AddBatches, ToAll;
    var rep := k.replicas[s.leader];
    var b := UpstreamEofBusiness(s.routing, SiteOf(s, s.leader), rep.view, s.client, s.total);
    next := Handled(s, s.leader, rep, UpstreamEofIn, b, rep.fate);
  }

  /** What is said of a replica looks at a few of its parts. */
  lemma JoinedAs(s: Setup, net: set<(nat, Peer)>, r: nat, rep: Replica, next: Replica)
    requires Joined(s, net, r, rep) && next.fate == rep.fate && next.view.coord.pending == rep.view.coord.pending
    requires rep.seen <= next.seen && (forall x :: x in next.seen && x !in rep.seen ==> x.BatchIn? || x.UpstreamEofIn?)
    requires forall i :: i in rep.counted ==> i in next.counted
    requires rep.fate == OPEN ==> forall i :: BatchIn(i) in next.seen && BatchIn(i) !in rep.seen ==> i in next.counted
    ensures Joined(s, net, r, next)
  {
    hide HasAnswered, HasFlushed, ToEach;
  }

  lemma LeadingAs(s: Setup, net: set<(nat, Peer)>, rep: Replica, next: Replica)
    requires Leading(s, net, rep) && next.fate == rep.fate && next.eofs == rep.eofs && next.tallies == rep.tallies
    requires next.view.acks == rep.view.acks && rep.seen <= next.seen
    requires forall x :: x in next.seen && x !in rep.seen ==> x.BatchIn? || x.UpstreamEofIn?
    requires UpstreamEofIn in next.seen && UpstreamEofIn !in rep.seen ==> ToEach(s, net, Announcement(s))
    ensures Leading(s, net, next)
  {
    hide ToEach;
  }

  lemma UpstreamChain(s: Setup, k: Cluster)
    requires Inv(s, k) && Chain(s, k) && Enabled(s, k, DeliverUpstreamEof) && s.n > 1
    ensures Chain(s, OnUpstream(s, k))
  {
    var rep := k.replicas[s.leader];
    if UpstreamEofIn !in rep.seen && !rep.view.closed {
      hide Inv, Chain, OnUpstream, ToAll, Joined, Leading;
      ChainAt(s, k, s.leader);
      var next := UpstreamNext(s, k);
      var messages := ToAll(s.n, Announcement(s).message);
      ToAllReaches(s, k, s.leader, next, Announcement(s).message);
      var k2 := Put(k, s.leader, next, messages);
      assert k.net <= k2.net;
      JoinedMore(s, k.net, k2.net, s.leader, rep);
      JoinedAs(s, k2.net, s.leader, rep, next);
      LeadingMore(s, k.net, k2.net, rep);
      LeadingAs(s, k2.net, rep, next);
      hide ToEach;
      ChainFrom(s, k, s.leader, next, messages);
    }
  }

  lemma AnnouncedChain(s: Setup, k: Cluster, r: nat, c: Control, forwarded: nat)
    requires Chain(s, k) && Enabled(s, k, DeliverEofReceived(r, c, forwarded))
    ensures Chain(s, OnAnnounced(s, k, r, c, forwarded))
  {
    var rep := k.replicas[r];
    if EofReceivedIn(c.sender) !in rep.seen {
      hide AddBatches;
      var b := EofReceivedBusiness(SiteOf(s, r), rep.view, s.client, c, forwarded);
      var next := Handled(s, r, rep, EofReceivedIn(c.sender), b, rep.fate);
      assert Sent(s, k.net, k.replicas[s.leader], Ctrl(Message(EOF_RECEIVED, c))) && Joined(s, k.net, r, rep);
      var answer := (s.leader, Ctrl(Answer(r, rep.view.processed, forwarded)));
      assert b.messages == [answer];
      var k2 := Put(k, r, next, b.messages);
      assert k.net <= k2.net && answer in b.messages && next.eofs == rep.eofs;
      assert HasAnswered(s, k2.net, r) by { assert answer in k2.net; }
      ChainFrom(s, k, r, next, b.messages);
    }
  }

  lemma RequestChain(s: Setup, k: Cluster, r: nat, forwarded: nat)
    requires Chain(s, k) && r < s.n
    ensures Chain(s, OnRequest(s, k, r, forwarded))
  {
    var rep := k.replicas[r];
    assert Joined(s, k.net, r, rep);
    var action := OnProcessedRequest(r, rep.view.coord, rep.view.processed, forwarded).action;
    var messages := if action.SendAnswer? then [(action.leader, Ctrl(action.message))] else [];
    var k2 := Put(k, r, rep, messages);
    JoinedMore(s, k.net, k2.net, r, rep);
    LeadingMore(s, k.net, k2.net, k.replicas[s.leader]);
    if action.SendAnswer? {
      var c: Control :| c.sender == r && (s.leader, Ctrl(Message(PROCESSED_ANSWER, c))) in k.net;
      assert Sent(s, k.net, k.replicas[s.leader], Ctrl(Message(PROCESSED_ANSWER, c)));
    }
    hide Joined, Leading;
    ChainFrom(s, k, r, rep, messages);
  }

  /** A full tally is settled at once, so an open leader holds none. */
  lemma TallyShort(s: Setup, v: Coord, c: Control)
    requires s.n > 1 && v.expected.Some? && |v.responders| < s.n
    ensures |OnProcessedAnswer(s.leader, s.n, v, c).state.responders| < s.n
  {
  }

  lemma AnswerChain(s: Setup, k: Cluster, r: nat, c: Control)
    requires Inv(s, k) && Chain(s, k) && Enabled(s, k, DeliverAnswer(r, c)) && s.n > 1
    ensures Chain(s, OnAnswer(s, k, r, c))
  {
    assert Sent(s, k.net, k.replicas[s.leader], Ctrl(Message(PROCESSED_ANSWER, c)));
    hide Inv, Chain, ToAll, OnProcessedAnswer;
    var rep := k.replicas[r];
    InvAt(s, k, r);
    ChainAt(s, k, r);
    var o := OnProcessedAnswer(r, s.n, rep.view.coord, c);
    AnswerActs(s, r, rep.view.coord, c);
    var next := WithCoord(rep, o.state);
    var messages := if o.action.Broadcast? then ToAll(s.n, o.action.message) else [];
    var k2 := Put(k, r, next, messages);
    assert k.net <= k2.net;
    if o.action.Broadcast? { ToAllReaches(s, k, r, next, o.action.message); }
    if r == s.leader && rep.fate == OPEN { TallyShort(s, rep.view.coord, c); }
    JoinedMore(s, k.net, k2.net, r, rep);
    LeadingMore(s, k.net, k2.net, k.replicas[s.leader]);
    hide ToEach, HasAnswered, HasFlushed;
    ChainFrom(s, k, r, next, messages);
  }

  lemma AnswerActs(s: Setup, r: nat, v: Coord, c: Control)
    requires v.expected.Some? ==> r == s.leader && v.expected == Some(s.total)
    ensures var o := OnProcessedAnswer(r, s.n, v, c);
            && o.state.pending == v.pending && o.state.expected == v.expected
            && (o.action.Broadcast? ==>
                  || Ctrl(o.action.message) == Order(s)
                  || o.action.message == Message(PROCESSED_REQUEST, Control(s.leader, s.total, 0)))
  {
  }

  lemma OrderChain(s: Setup, k: Cluster, r: nat, c: Control)
    requires Inv(s, k) && Chain(s, k) && Enabled(s, k, DeliverFlushOrder(r, c))
    ensures Chain(s, OnOrder(s, k, r, c))
  {
    hide OpenOk, DrainedOk, CountedOk, AcksOk, EofsOk, TallyOk, AddBatches, Applied;
    var rep := k.replicas[r];
    if FlushOrderIn(c.sender) !in rep.seen && ObeysFlush(rep.view) {
      FollowerObeys(s, k, r, c);
      assert Sent(s, k.net, k.replicas[s.leader], Ctrl(Message(FLUSH_ORDER, c))) && Joined(s, k.net, r, rep);
      var b := FlushOrderBusiness(SiteOf(s, r), rep.view, s.client, c.sender);
      ClosedByCleanup(SiteOf(s, r), rep.view, s.client);
      var next := Handled(s, r, rep, FlushOrderIn(c.sender), b, DRAINED);
      var k2 := Put(k, r, next, b.messages);
      var ack := (s.leader, Flushed(r, rep.view.forwarded));
      assert k.net <= k2.net && ack in b.messages;
      assert HasFlushed(s, k2.net, r) by { assert ack in k2.net; }
      ChainFrom(s, k, r, next, b.messages);
    }
  }

  lemma AbortChain(s: Setup, k: Cluster, r: nat)
    requires Chain(s, k) && r < s.n
    ensures Chain(s, OnAbort(s, k, r))
  {
    hide AddBatches, Applied;
    var rep := k.replicas[r];
    if AbortIn !in rep.seen {
      var fate := if rep.fate == OPEN then ABORTED else rep.fate;
      var next := Handled(s, r, rep, AbortIn, AbortBusiness(s.client), fate);
      ClosedByCleanup(SiteOf(s, r), rep.view, s.client);
      assert Joined(s, k.net, r, rep);
      var k2 := Put(k, r, next, []);
      assert k.net <= k2.net && next.eofs == rep.eofs;
      JoinedMore(s, k.net, k2.net, r, rep);
      LeadingMore(s, k.net, k2.net, k.replicas[s.leader]);
      hide ToEach, HasAnswered, HasFlushed;
      ChainFrom(s, k, r, next, []);
    }
  }

  lemma CrashChain(s: Setup, k: Cluster, r: nat, tally: Tally)
    requires Chain(s, k) && Enabled(s, k, Crash(r, tally))
    ensures Chain(s, OnCrash(k, r, tally))
  {
    var next := OnCrash(k, r, tally).replicas[r];
    assert Joined(s, k.net, r, k.replicas[r]);
    ChainFrom(s, k, r, next, []);
  }

  lemma AckChain(s: Setup, k: Cluster, r: nat, sender: nat, counts: Counts)
    requires Sensible(s) && Inv(s, k) && Chain(s, k) && Enabled(s, k, DeliverFlushAck(r, sender, counts))
    ensures Chain(s, OnAck(s, k, r, sender, counts))
  {
    var rep := k.replicas[r];
    if FlushAckIn(sender) !in rep.seen && CountsAcks(rep.view) {
      FreshAck(s, k, r, sender, counts);
      if |rep.view.acks| + 1 < s.n - 1 {
        AckChainEarly(s, k, sender, counts);
      } else {
        AckChainLast(s, k, sender, counts);
      }
    }
  }

  lemma AckChainEarly(s: Setup, k: Cluster, sender: nat, counts: Counts)
    requires Chain(s, k) && k.replicas[s.leader].fate == OPEN && CountsAcks(k.replicas[s.leader].view)
    requires FlushAckIn(sender) !in k.replicas[s.leader].seen && sender !in k.replicas[s.leader].view.acks
    requires |k.replicas[s.leader].view.acks| + 1 < s.n - 1
    ensures Chain(s, OnAck(s, k, s.leader, sender, counts))
  {
    hide AddBatches, Sum;
    var rep := k.replicas[s.leader];
    var b := FlushAckBusiness(s.routing, SiteOf(s, s.leader), rep.view, s.client, sender, counts);
    var next := Handled(s, s.leader, rep, FlushAckIn(sender), b, rep.fate);
    assert Joined(s, k.net, s.leader, rep) && next.eofs == rep.eofs;
    var k2 := Put(k, s.leader, next, []);
    assert k2.net == k.net;
    ChainFrom(s, k, s.leader, next, []);
  }

  lemma AckChainLast(s: Setup, k: Cluster, sender: nat, counts: Counts)
    requires Sensible(s) && Inv(s, k) && Chain(s, k)
    requires Enabled(s, k, DeliverFlushAck(s.leader, sender, counts))
    requires FlushAckIn(sender) !in k.replicas[s.leader].seen && CountsAcks(k.replicas[s.leader].view)
    requires |k.replicas[s.leader].view.acks| + 1 >= s.n - 1
    ensures Chain(s, OnAck(s, k, s.leader, sender, counts))
  {
    hide OpenOk, DrainedOk, CountedOk, AcksOk, EofsOk, TallyOk, AddBatches, Applied, Sum;
    FreshAck(s, k, s.leader, sender, counts);
    var rep := k.replicas[s.leader];
    OpenNoEofs(s, k, s.leader);
    var b := FlushAckBusiness(s.routing, SiteOf(s, s.leader), rep.view, s.client, sender, counts);
    ClosedByAck(SiteOf(s, s.leader), rep.view, s.client, sender, counts);
    var next := Handled(s, s.leader, rep, FlushAckIn(sender), b, DRAINED);
    assert Joined(s, k.net, s.leader, rep) && Joined(s, k.net, sender, k.replicas[sender]);
    var k2 := Put(k, s.leader, next, []);
    assert k2.net == k.net && next.eofs == b.eofs;
    LastAckDrained(s, k, sender, counts);
    ChainFrom(s, k, s.leader, next, []);
  }

  lemma LastAckDrained(s: Setup, k: Cluster, sender: nat, counts: Counts)
    requires Sensible(s) && Inv(s, k) && FlushedOk(s, k, sender, counts) && k.replicas[s.leader].fate == OPEN
    requires sender !in k.replicas[s.leader].view.acks && |k.replicas[s.leader].view.acks| + 1 >= s.n - 1
    ensures forall q :: 0 <= q < s.n && q != s.leader ==> k.replicas[q].fate == DRAINED
  {
    hide CountedOk, DrainedOk, LeadsOk, EofsOk, TallyOk, PeerOk, AcksOk;
    var rep := k.replicas[s.leader];
    assert ReplicaOk(s, s.leader, rep) && AcksOk(s, k, rep);
    LastAckTotal(s, k, rep, sender, counts, "");
  }

  lemma StepKeepsChain(s: Setup, k: Cluster, step: Step)
    requires Sensible(s) && Inv(s, k) && Chain(s, k) && Enabled(s, k, step) && s.n > 1
    ensures Chain(s, Next(s, k, step))
  {
    hide Inv, Chain;
    match step
    case DeliverBatch(r, i) => BatchChain(s, k, r, i);
    case DeliverUpstreamEof => UpstreamChain(s, k);
    case DeliverEofReceived(r, c, forwarded) => AnnouncedChain(s, k, r, c, forwarded);
    case DeliverRequest(r, _, forwarded) => RequestChain(s, k, r, forwarded);
    case DeliverAnswer(r, c) => AnswerChain(s, k, r, c);
    case DeliverFlushOrder(r, c) => OrderChain(s, k, r, c);
    case DeliverFlushAck(r, sender, counts) => AckChain(s, k, r, sender, counts);
    case DeliverAbort(r) => AbortChain(s, k, r);
    case Crash(r, tally) => CrashChain(s, k, r, tally);
  }

  lemma {:induction false} RunKeepsChain(s: Setup, steps: seq<Step>)
    requires Sensible(s) && s.n > 1 && Reached(s, steps).Some?
    ensures Chain(s, Reached(s, steps).value)
  {
    if steps != [] {
      hide Inv, Chain, Next, Enabled;
      var init := steps[..|steps| - 1];
      RunKeepsChain(s, init);
      RunKeepsInv(s, init);
      StepKeepsChain(s, Reached(s, init).value, steps[|steps| - 1]);
    } else {
      hide Reached;
      StartChain(s);
    }
  }

  lemma StartChain(s: Setup)
    requires Sensible(s) && s.n > 1
    ensures Reached(s, []).Some? && Chain(s, Reached(s, []).value)
  {
  }
}
