/** Rounds of count collection, and a way to the end of stream from every state without an abort. */
module FilterCompletion {
  import opened Prelude
  import opened EofCoordination
  import opened Filters
  import opened Sums
  import opened FilterCluster
  import opened FilterRuns
  import opened FilterProgress

  // ---------- one round of count collection ----------

  /** What a replica has to report: what it has counted, or nothing once it has closed. */
  function Report(s: Setup, rep: Replica): nat {
    if rep.fate == OPEN then |Txs(s, rep.counted)| else 0
  }

  function Reports(s: Setup, k: Cluster): seq<nat> {
    seq(|k.replicas|, r requires 0 <= r < |k.replicas| => Report(s, k.replicas[r]))
  }

  lemma CountIsProcessed(s: Setup, k: Cluster, r: nat)
    requires Shaped(s, k) && r < s.n
    ensures k.replicas[r].view.processed == Report(s, k.replicas[r])
  {
    hide Txs, DrainedOk, CountedOk, LeadsOk;
    assert ReplicaOk(s, r, k.replicas[r]);
  }

  /** A request makes a replica with a pending end of stream send one message: to the replica that announced it, with
      exactly what it has counted. A replica that knows of none sends nothing. */
  lemma RequestAnswersExactly(s: Setup, k: Cluster, r: nat, forwarded: nat)
    requires Shaped(s, k) && r < s.n
    ensures var k2, pending := OnRequest(s, k, r, forwarded), k.replicas[r].view.coord.pending;
            && k2.replicas == k.replicas
            && k2.net == k.net + match pending
                                 case None => {}
                                 case Some(p) => {(p.1, Ctrl(Answer(r, Report(s, k.replicas[r]), forwarded)))}
  {
    hide ReplicaOk, Report;
    CountIsProcessed(s, k, r);
  }

  function Requests(c: Control, n: nat): seq<Step> { seq(n, q requires 0 <= q < n => DeliverRequest(q, c, 0)) }

  function Answers(s: Setup, counts: seq<nat>): seq<Step> {
    seq(|counts|, q requires 0 <= q < |counts| => DeliverAnswer(s.leader, Control(q, 0, counts[q])))
  }

  lemma OneMore(s: Setup, steps: seq<Step>, step: Step)
    requires Reached(s, steps).Some? && Enabled(s, Reached(s, steps).value, step)
    ensures Reached(s, steps + [step]) == Some(Next(s, Reached(s, steps).value, step))
  {
    hide Next, Enabled;
    assert (steps + [step])[..|steps|] == steps;
  }

  /** Everybody knows of the end of stream, the leader asks all and holds no answer. */
  ghost predicate Asking(s: Setup, k: Cluster, c: Control) {
    && s.leader < s.n == |k.replicas| && s.n > 1
    && k.replicas[s.leader].fate == OPEN && UpstreamEofIn in k.replicas[s.leader].seen
    && TallyOf(k.replicas[s.leader].view) == ({}, 0)
    && ToEach(s, k.net, Ctrl(Message(PROCESSED_REQUEST, c)))
    && forall r :: 0 <= r < s.n ==> k.replicas[r].view.coord.pending.Some?
  }

  /** The first `q` replicas have answered. */
  ghost predicate Answered(s: Setup, k: Cluster, k2: Cluster, q: nat) {
    && k2.replicas == k.replicas && k.net <= k2.net && q <= |k.replicas|
    && (forall r :: 0 <= r < q ==> (s.leader, Ctrl(Answer(r, Report(s, k.replicas[r]), 0))) in k2.net)
    && forall m :: m in k2.net && m !in k.net ==> m.1.Ctrl? && m.1.message.kind == PROCESSED_ANSWER
  }

  lemma {:induction false} AskAll(s: Setup, steps: seq<Step>, c: Control, q: nat)
    requires Sensible(s) && Reached(s, steps).Some? && Asking(s, Reached(s, steps).value, c) && q <= s.n
    ensures var more := Reached(s, steps + Requests(c, q));
            more.Some? && Answered(s, Reached(s, steps).value, more.value, q)
  {
    hide Report, Reached, Answered;
    var k := Reached(s, steps).value;
    if q == 0 {
      assert steps + Requests(c, 0) == steps;
      NoneAnswered(s, k);
    } else {
      AskAll(s, steps, c, q - 1);
      var asked, step := steps + Requests(c, q - 1), DeliverRequest(q - 1, c, 0);
      RunKeepsInv(s, asked);
      RunKeepsChain(s, asked);
      assert steps + Requests(c, q) == asked + [step];
      OneAnswered(s, k, Reached(s, asked).value, c, q - 1);
      hide OnRequest;
      OneMore(s, asked, step);
    }
  }

  lemma NoneAnswered(s: Setup, k: Cluster)
    ensures Answered(s, k, k, 0)
  {
  }

  lemma OneAnswered(s: Setup, k: Cluster, k2: Cluster, c: Control, q: nat)
    requires Asking(s, k, c) && Answered(s, k, k2, q) && q < s.n && Shaped(s, k2) && Chain(s, k2)
    ensures Enabled(s, k2, DeliverRequest(q, c, 0)) && Answered(s, k, OnRequest(s, k2, q, 0), q + 1)
  {
    hide Report, ReplicaOk, Leading, Sent;
    RequestAnswersExactly(s, k2, q, 0);
    hide OnRequest;
    assert Joined(s, k2.net, q, k2.replicas[q]);
  }

  /** The leader has taken the answers of the first `q`; nothing else has changed. */
  ghost predicate Tallied(s: Setup, k: Cluster, k2: Cluster, q: nat) {
    && s.leader < |k.replicas| == |k2.replicas| && q <= |k.replicas| && k2.net == k.net
    && (forall r :: 0 <= r < |k.replicas| && r != s.leader ==> k2.replicas[r] == k.replicas[r])
    && var a, b := k.replicas[s.leader], k2.replicas[s.leader];
       && b == a.(view := b.view, tallies := b.tallies) && b.view == a.view.(coord := b.view.coord)
       && b.view.coord == a.view.coord.(responders := Ids(q), processed := SumOver(Reports(s, k), Ids(q)))
  }

  /** The message to every replica. */
  function Everyone(n: nat, p: Peer): set<(nat, Peer)> { set q | q in Ids(n) :: (q, p) }

  ghost predicate SameWork(a: Replica, b: Replica) { b.fate == a.fate && b.counted == a.counted && b.seen == a.seen }

  /** How a round ends: all answers are in and the tally is empty again. */
  ghost predicate Decided(s: Setup, k: Cluster, k2: Cluster) {
    && |k2.replicas| == |k.replicas| && s.leader < |k2.replicas| && TallyOf(k2.replicas[s.leader].view) == ({}, 0)
    && (forall r :: 0 <= r < |k.replicas| ==> SameWork(k.replicas[r], k2.replicas[r]))
    && var verdict := if s.total <= Total(Reports(s, k)) then Order(s)
                      else Ctrl(Message(PROCESSED_REQUEST, Control(s.leader, s.total, 0)));
       k2.net == k.net + Everyone(s.n, verdict)
  }

  lemma AnswerTaken(s: Setup, c: Coord, q: nat, count: nat)
    requires c.expected == Some(s.total) && c.responders == Ids(q) && q < s.n
    ensures var o, sum := OnProcessedAnswer(s.leader, s.n, c, Control(q, 0, count)), c.processed + count;
            && (q + 1 < s.n ==> o == Outcome(c.(responders := Ids(q + 1), processed := sum), Nothing))
            && (q + 1 == s.n ==>
                  && o.state == c.(responders := {}, processed := 0)
                  && o.action.Broadcast?
                  && Ctrl(o.action.message) ==
                     if s.total <= sum then Order(s)
                     else Ctrl(Message(PROCESSED_REQUEST, Control(s.leader, s.total, 0))))
  {
    assert Ids(q + 1) == Ids(q) + {q};
  }

  lemma ToAllSet(n: nat, m: Message)
    ensures (set x | x in ToAll(n, m)) == Everyone(n, Ctrl(m))
  {
    var all := ToAll(n, m);
    forall q | q in Ids(n) ensures (q, Ctrl(m)) in all {
      assert all[q] == (q, Ctrl(m));
    }
  }

  lemma CountsNext(s: Setup, k: Cluster, q: nat)
    requires q < |k.replicas|
    ensures SumOver(Reports(s, k), Ids(q + 1)) == SumOver(Reports(s, k), Ids(q)) + Report(s, k.replicas[q])
  {
    hide Report, SumOver;
    SumInsert(Reports(s, k), Ids(q), q);
  }

  lemma OneTallied(s: Setup, k: Cluster, k2: Cluster, q: nat)
    requires s.leader < |k.replicas| == s.n && Tallied(s, k, k2, q) && q + 1 < s.n
    requires k.replicas[s.leader].view.coord.expected == Some(s.total)
    ensures Tallied(s, k, OnAnswer(s, k2, s.leader, Control(q, 0, Report(s, k.replicas[q]))), q + 1)
  {
    hide Report, Reports, SumOver, ToAll, OnProcessedAnswer, Ids;
    CountsNext(s, k, q);
    AnswerTaken(s, k2.replicas[s.leader].view.coord, q, Report(s, k.replicas[q]));
    assert k2.net + {} == k2.net;
  }

  lemma LastTallied(s: Setup, k: Cluster, k2: Cluster, q: nat)
    requires s.leader < |k.replicas| == s.n && Tallied(s, k, k2, q) && q + 1 == s.n
    requires k.replicas[s.leader].view.coord.expected == Some(s.total)
    ensures Decided(s, k, OnAnswer(s, k2, s.leader, Control(q, 0, Report(s, k.replicas[q]))))
  {
    assert |Reports(s, k)| == s.n;
    CountsNext(s, k, q);
    TalliedFrame(s, k, k2, q);
    hide Report, Reports, SumOver, OnProcessedAnswer, Ids, Everyone, OnAnswer, Tallied;
    var c := Control(q, 0, Report(s, k.replicas[q]));
    AnswerTaken(s, k2.replicas[s.leader].view.coord, q, c.processedCount);
    AnswerPuts(s, k2, c);
  }

  lemma AnswerPuts(s: Setup, k: Cluster, c: Control)
    requires s.leader < |k.replicas|
    ensures var o := OnProcessedAnswer(s.leader, s.n, k.replicas[s.leader].view.coord, c);
            && OnAnswer(s, k, s.leader, c).replicas ==
               k.replicas[s.leader := WithCoord(k.replicas[s.leader], o.state)]
            && (o.action.Broadcast? ==>
                  OnAnswer(s, k, s.leader, c).net == k.net + Everyone(s.n, Ctrl(o.action.message)))
  {
    hide OnProcessedAnswer, WithCoord, Everyone, ToAll;
    var o := OnProcessedAnswer(s.leader, s.n, k.replicas[s.leader].view.coord, c);
    if o.action.Broadcast? { ToAllSet(s.n, o.action.message); }
  }

  lemma {:induction false} TakeAll(s: Setup, steps: seq<Step>, counts: seq<nat>, q: nat)
    requires Reached(s, steps).Some? && q <= s.n == |counts|
    requires var k := Reached(s, steps).value;
             && s.leader < |k.replicas| == s.n && counts == Reports(s, k)
             && k.replicas[s.leader].view.coord.expected == Some(s.total)
             && TallyOf(k.replicas[s.leader].view) == ({}, 0)
             && forall r :: 0 <= r < s.n ==> (s.leader, Ctrl(Answer(r, counts[r], 0))) in k.net
    ensures var more := Reached(s, steps + Answers(s, counts)[..q]);
            && more.Some? && (q < s.n ==> Tallied(s, Reached(s, steps).value, more.value, q))
            && (q == s.n > 0 ==> Decided(s, Reached(s, steps).value, more.value))
  {
    hide Reached, Tallied, Decided, Report;
    var k, all := Reached(s, steps).value, Answers(s, counts);
    if q == 0 {
      assert steps + all[..0] == steps;
      NoneTallied(s, k);
    } else {
      TakeAll(s, steps, counts, q - 1);
      var taken, step := steps + all[..q - 1], DeliverAnswer(s.leader, Control(q - 1, 0, counts[q - 1]));
      assert steps + all[..q] == taken + [step];
      var k2 := Reached(s, taken).value;
      assert |k2.replicas| == s.n && k2.net == k.net by { TalliedFrame(s, k, k2, q - 1); }
      OneMore(s, taken, step);
      if q < s.n { OneTallied(s, k, k2, q - 1); } else { LastTallied(s, k, k2, q - 1); }
    }
  }

  lemma NoneTallied(s: Setup, k: Cluster)
    requires s.leader < |k.replicas| && TallyOf(k.replicas[s.leader].view) == ({}, 0)
    ensures Tallied(s, k, k, 0)
  {
    NoneSum(Reports(s, k));
  }

  lemma TalliedFrame(s: Setup, k: Cluster, k2: Cluster, q: nat)
    requires Tallied(s, k, k2, q)
    ensures s.leader < |k2.replicas| == |k.replicas| && k2.net == k.net
    ensures forall r :: 0 <= r < |k.replicas| ==> SameWork(k.replicas[r], k2.replicas[r])
    ensures var c := k2.replicas[s.leader].view.coord;
            && c.expected == k.replicas[s.leader].view.coord.expected && c.responders == Ids(q)
            && c.processed == SumOver(Reports(s, k), Ids(q))
  {
  }

  /** A round from an empty tally: the leader's request is delivered to all and their answers to the leader. It then
      orders the flush if the open replicas have counted the announced total, and asks everybody again if not. */
  lemma RoundDecides(s: Setup, steps: seq<Step>, c: Control)
    requires Sensible(s) && Reached(s, steps).Some? && Asking(s, Reached(s, steps).value, c)
    ensures var k := Reached(s, steps).value;
            var asked := Reached(s, steps + Requests(c, s.n));
            var done := Reached(s, steps + Requests(c, s.n) + Answers(s, Reports(s, k)));
            asked.Some? && Answered(s, k, asked.value, s.n) && done.Some? && Decided(s, asked.value, done.value)
  {
    var k := Reached(s, steps).value;
    AskAll(s, steps, c, s.n);
    RunKeepsInv(s, steps);
    hide OpenOk, DrainedOk, CountedOk, AcksOk, EofsOk, TallyOk, PeerOk;
    assert ReplicaOk(s, s.leader, k.replicas[s.leader]);
    hide ReplicaOk, Reached, Report, Decided;
    var asked := Reached(s, steps + Requests(c, s.n)).value;
    var counts := Reports(s, k);
    TakeAll(s, steps + Requests(c, s.n), counts, s.n);
    assert Answers(s, counts)[..s.n] == Answers(s, counts);
  }
}
