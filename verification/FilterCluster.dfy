/** N filter replicas serving one client over a network that may duplicate, delay and reorder. */
module FilterCluster {
  import opened Prelude
  import opened BatchBuffers
  import opened EofCoordination
  import opened FilterStates
  import opened Filters
  import opened Sums

  /** Inputs a replica's inbox tells apart. */
  datatype Input =
    | BatchIn(i: nat)
    | UpstreamEofIn
    | EofReceivedIn(sender: nat)
    | FlushOrderIn(sender: nat)
    | FlushAckIn(sender: nat)
    | AbortIn

  /** One client's stream: its batches, the replica that gets the upstream end of stream and the total announced
      by it. A batch may be delivered to any replica, and to several. */
  datatype Setup = Setup(n: nat, lim: Limits, routing: Routing, client: nat,
                         upstream: seq<seq<Transaction>>, leader: nat, total: nat)

  /** How the client left the replica, if it did. */
  datatype Fate = OPEN | DRAINED | ABORTED

  type Tally = (set<nat>, nat)

  /** A replica: its state for the client, the inputs it has applied and, for the record, which batches
      it counted, the DATA batches and EOFs it stamped, and every answer tally it ever held. */
  datatype Replica = Replica(view: FilterView, seen: set<Input>, counted: seq<nat>,
                             stamped: map<string, seq<Batch>>, eofs: seq<(string, nat)>,
                             fate: Fate, tallies: set<Tally>)

  /** `net` holds every message ever sent, with its destination. */
  datatype Cluster = Cluster(replicas: seq<Replica>, net: set<(nat, Peer)>)

  datatype Step =
    | DeliverBatch(r: nat, i: nat)
    | DeliverUpstreamEof
    | DeliverEofReceived(r: nat, c: Control, forwarded: nat)
    | DeliverRequest(r: nat, c: Control, forwarded: nat)
    | DeliverAnswer(r: nat, c: Control)
    | DeliverFlushOrder(r: nat, c: Control)
    | DeliverFlushAck(r: nat, sender: nat, counts: Counts)
    | DeliverAbort(r: nat)
    | Crash(r: nat, tally: Tally)

  ghost predicate Sensible(s: Setup) { s.leader < s.n }

  function SiteOf(s: Setup, r: nat): Site { Site(r, s.n, s.lim) }

  const FRESH_REPLICA := Replica(UNKNOWN, {}, [], map[], [], OPEN, {({}, 0)})

  function Start(s: Setup): Cluster {
    Cluster(seq(s.n, i => FRESH_REPLICA), {})
  }

  function TallyOf(v: FilterView): Tally { (v.coord.responders, v.coord.processed) }

  function AddBatches(stamped: map<string, seq<Batch>>, data: map<string, seq<Batch>>): map<string, seq<Batch>> {
    map d | d in stamped.Keys + data.Keys :: Get(stamped, d, []) + Get(data, d, [])
  }

  /** A first-time input goes through the durable handler. */
  function Handled(s: Setup, r: nat, rep: Replica, input: Input, b: Business, fate: Fate): Replica {
    rep.(view := Applied(SiteOf(s, r), rep.view, s.client, b.change), seen := rep.seen + {input},
         stamped := AddBatches(rep.stamped, b.data), eofs := rep.eofs + b.eofs, fate := fate)
  }

  function Put(k: Cluster, r: nat, rep: Replica, messages: seq<(nat, Peer)>): Cluster
    requires r < |k.replicas|
  {
    Cluster(k.replicas[r := rep], k.net + set m | m in messages)
  }

  ghost predicate Enabled(s: Setup, k: Cluster, step: Step) {
    && |k.replicas| == s.n
    && match step
       case DeliverBatch(r, i) => r < s.n && i < |s.upstream|
       case DeliverUpstreamEof => s.leader < s.n
       case DeliverEofReceived(r, c, _) => r < s.n && (r, Ctrl(Message(EOF_RECEIVED, c))) in k.net
       case DeliverRequest(r, c, _) => r < s.n && (r, Ctrl(Message(PROCESSED_REQUEST, c))) in k.net
       case DeliverAnswer(r, c) => r < s.n && (r, Ctrl(Message(PROCESSED_ANSWER, c))) in k.net
       case DeliverFlushOrder(r, c) => r < s.n && (r, Ctrl(Message(FLUSH_ORDER, c))) in k.net
       case DeliverFlushAck(r, sender, counts) => r < s.n && (r, Flushed(sender, counts)) in k.net
       case DeliverAbort(r) => r < s.n
       case Crash(r, tally) => r < s.n && tally in k.replicas[r].tallies
  }

  function Next(s: Setup, k: Cluster, step: Step): Cluster
    requires Enabled(s, k, step)
  {
    match step
    case DeliverBatch(r, i) => OnBatch(s, k, r, i)
    case DeliverUpstreamEof => OnUpstream(s, k)
    case DeliverEofReceived(r, c, forwarded) => OnAnnounced(s, k, r, c, forwarded)
    case DeliverRequest(r, _, forwarded) => OnRequest(s, k, r, forwarded)
    case DeliverAnswer(r, c) => OnAnswer(s, k, r, c)
    case DeliverFlushOrder(r, c) => OnOrder(s, k, r, c)
    case DeliverFlushAck(r, sender, counts) => OnAck(s, k, r, sender, counts)
    case DeliverAbort(r) => OnAbort(s, k, r)
    case Crash(r, tally) => OnCrash(k, r, tally)
  }

  function OnBatch(s: Setup, k: Cluster, r: nat, i: nat): Cluster
    requires r < |k.replicas| && i < |s.upstream|
  {
    var rep := k.replicas[r];
    if BatchIn(i) in rep.seen then k
    else
      var b := DataBusiness(s.routing, SiteOf(s, r), rep.view, s.client, s.upstream[i]);
      var next := Handled(s, r, rep, BatchIn(i), b, rep.fate);
      Put(k, r, next.(counted := if rep.view.closed then rep.counted else rep.counted + [i]), [])
  }

  function OnUpstream(s: Setup, k: Cluster): Cluster
    requires s.leader < |k.replicas|
  {
    var rep := k.replicas[s.leader];
    if UpstreamEofIn in rep.seen || rep.view.closed then k
    else
      var b := UpstreamEofBusiness(s.routing, SiteOf(s, s.leader), rep.view, s.client, s.total);
      Put(k, s.leader, Handled(s, s.leader, rep, UpstreamEofIn, b, if s.n > 1 then rep.fate else DRAINED), b.messages)
  }

  function OnAnnounced(s: Setup, k: Cluster, r: nat, c: Control, forwarded: nat): Cluster
    requires r < |k.replicas|
  {
    var rep := k.replicas[r];
    if EofReceivedIn(c.sender) in rep.seen then k
    else
      var b := EofReceivedBusiness(SiteOf(s, r), rep.view, s.client, c, forwarded);
      Put(k, r, Handled(s, r, rep, EofReceivedIn(c.sender), b, rep.fate), b.messages)
  }

  /** Not logged: the answer is computed from durable counters. */
  function OnRequest(s: Setup, k: Cluster, r: nat, forwarded: nat): Cluster
    requires r < |k.replicas|
  {
    var rep := k.replicas[r];
    var action := OnProcessedRequest(r, rep.view.coord, rep.view.processed, forwarded).action;
    Put(k, r, rep, if action.SendAnswer? then [(action.leader, Ctrl(action.message))] else [])
  }

  function WithCoord(rep: Replica, c: Coord): Replica {
    rep.(view := rep.view.(coord := c), tallies := rep.tallies + {(c.responders, c.processed)})
  }

  /** Not logged: the tally lives in memory and in snapshots only. */
  function OnAnswer(s: Setup, k: Cluster, r: nat, c: Control): Cluster
    requires r < |k.replicas|
  {
    var rep := k.replicas[r];
    var o := OnProcessedAnswer(r, s.n, rep.view.coord, c);
    Put(k, r, WithCoord(rep, o.state), if o.action.Broadcast? then ToAll(s.n, o.action.message) else [])
  }

  function OnOrder(s: Setup, k: Cluster, r: nat, c: Control): Cluster
    requires r < |k.replicas|
  {
    var rep := k.replicas[r];
    if FlushOrderIn(c.sender) in rep.seen || !ObeysFlush(rep.view) then k
    else
      var b := FlushOrderBusiness(SiteOf(s, r), rep.view, s.client, c.sender);
      Put(k, r, Handled(s, r, rep, FlushOrderIn(c.sender), b, DRAINED), b.messages)
  }

  function OnAck(s: Setup, k: Cluster, r: nat, sender: nat, counts: Counts): Cluster
    requires r < |k.replicas|
  {
    var rep := k.replicas[r];
    if FlushAckIn(sender) in rep.seen || !CountsAcks(rep.view) then k
    else
      var b := FlushAckBusiness(s.routing, SiteOf(s, r), rep.view, s.client, sender, counts);
      Put(k, r, Handled(s, r, rep, FlushAckIn(sender), b,
                        if |rep.view.acks| + 1 < s.n - 1 then rep.fate else DRAINED), [])
  }

  function OnAbort(s: Setup, k: Cluster, r: nat): Cluster
    requires r < |k.replicas|
  {
    var rep := k.replicas[r];
    if AbortIn in rep.seen then k
    else
      Put(k, r, Handled(s, r, rep, AbortIn, AbortBusiness(s.client), if rep.fate == OPEN then ABORTED else rep.fate),
          [])
  }

  /** Recovery rebuilds everything that is logged; the tally falls back to the snapshot's. */
  function OnCrash(k: Cluster, r: nat, tally: Tally): Cluster
    requires r < |k.replicas|
  {
    var rep := k.replicas[r];
    Put(k, r, rep.(view := rep.view.(coord := rep.view.coord.(responders := tally.0, processed := tally.1))), [])
  }

  /** The transactions of the given batches, one batch after the other. */
  function Txs(s: Setup, counted: seq<nat>): seq<Transaction> {
    if counted == [] then [] else Txs(s, counted[..|counted| - 1]) + BatchAt(s, counted[|counted| - 1])
  }

  function BatchAt(s: Setup, i: nat): seq<Transaction> {
    if i < |s.upstream| then s.upstream[i] else []
  }

  ghost predicate CountedOk(s: Setup, r: nat, rep: Replica) {
    && (forall i :: i in rep.counted ==> i < |s.upstream| && BatchIn(i) in rep.seen)
    && forall a, b :: 0 <= a < b < |rep.counted| ==> rep.counted[a] != rep.counted[b]
  }

  /** What an open replica has counted is in its counters, and every routed payload is either in a
      stamped batch or still in the buffer, in order. */
  ghost predicate OpenOk(s: Setup, rep: Replica) {
    && rep.view.processed == |Txs(s, rep.counted)|
    && (forall l :: Get(rep.view.forwarded, l, 0) == RoutedCount(s.routing, Txs(s, rep.counted), l))
    && Filled(rep.view.buffer)
    && forall d :: Concat(Get(rep.stamped, d, [])) + Get(rep.view.buffer, d, []) ==
                   RoutedTo(s.routing, Txs(s, rep.counted), d)
  }

  /** A drained replica has stamped every routed payload of what it counted. */
  ghost predicate DrainedOk(s: Setup, rep: Replica) {
    forall d :: Concat(Get(rep.stamped, d, [])) == RoutedTo(s.routing, Txs(s, rep.counted), d)
  }

  /** Only the replica that got the upstream end of stream leads, with the announced total. */
  ghost predicate LeadsOk(s: Setup, r: nat, rep: Replica) {
    r == s.leader && s.n > 1 && UpstreamEofIn in rep.seen && rep.view.coord.expected == Some(s.total)
  }

  /** Nothing of the client is kept. */
  ghost predicate Forgotten(v: FilterView) {
    v.processed == 0 && v.buffer == map[] && v.forwarded == map[] && v.acks == {} && v.allForwarded == map[]
  }

  ghost predicate ReplicaOk(s: Setup, r: nat, rep: Replica) {
    && CountedOk(s, r, rep)
    && (rep.view.closed <==> rep.fate != OPEN)
    && (rep.fate == OPEN ==> OpenOk(s, rep))
    && (rep.fate == DRAINED ==> DrainedOk(s, rep))
    && (rep.fate != OPEN ==> Forgotten(rep.view))
    && TallyOf(rep.view) in rep.tallies
    && (rep.view.coord.expected.Some? ==> LeadsOk(s, r, rep))
    && (rep.fate == OPEN && UpstreamEofIn in rep.seen ==> rep.view.coord.expected.Some?)
  }

  ghost predicate Shaped(s: Setup, k: Cluster) {
    && |k.replicas| == s.n
    && forall r :: 0 <= r < s.n ==> ReplicaOk(s, r, k.replicas[r])
  }

  /** Transactions each replica has counted so far. */
  function Evers(s: Setup, k: Cluster): (v: seq<nat>)
    requires Shaped(s, k)
    ensures |v| == s.n
  {
    seq(s.n, r requires 0 <= r < s.n => |Txs(s, k.replicas[r].counted)|)
  }

  /** Payloads for logical output `l` each replica has counted so far. */
  function Routeds(s: Setup, k: Cluster, l: string): (v: seq<nat>)
    requires Shaped(s, k)
    ensures |v| == s.n
  {
    seq(s.n, r requires 0 <= r < s.n => RoutedCount(s.routing, Txs(s, k.replicas[r].counted), l))
  }

  ghost predicate TallyOk(s: Setup, k: Cluster, t: Tally)
    requires Shaped(s, k)
  {
    t.0 <= Ids(s.n) && t.1 <= SumOver(Evers(s, k), t.0)
  }

  ghost predicate FlushedOk(s: Setup, k: Cluster, r: nat, counts: Counts)
    requires Shaped(s, k)
  {
    && r < s.n && r != s.leader && k.replicas[r].fate == DRAINED
    && forall l :: Get(counts, l, 0) == RoutedCount(s.routing, Txs(s, k.replicas[r].counted), l)
  }

  ghost predicate MessageOk(s: Setup, k: Cluster, m: Message)
    requires Shaped(s, k)
  {
    match m.kind
    case PROCESSED_ANSWER => m.control.sender < s.n && m.control.processedCount <= Evers(s, k)[m.control.sender]
    case FLUSH_ORDER =>
      s.n > 1 && s.leader < s.n && UpstreamEofIn in k.replicas[s.leader].seen && s.total <= Total(Evers(s, k))
    case _ => true
  }

  ghost predicate PeerOk(s: Setup, k: Cluster, p: Peer)
    requires Shaped(s, k)
  {
    match p
    case Ctrl(m) => MessageOk(s, k, m)
    case Flushed(r, counts) => FlushedOk(s, k, r, counts)
  }

  /** The leader's running ack totals are those of the replicas that drained and acked. */
  ghost predicate AcksOk(s: Setup, k: Cluster, rep: Replica)
    requires Shaped(s, k)
  {
    && (forall r :: r in rep.view.acks ==>
          r < s.n && r != s.leader && k.replicas[r].fate == DRAINED && FlushAckIn(r) in rep.seen)
    && forall l :: Get(rep.view.allForwarded, l, 0) == SumOver(Routeds(s, k, l), rep.view.acks)
  }

  /** EOFs carry the cross-replica totals and are stamped once everybody has drained. */
  ghost predicate EofsOk(s: Setup, k: Cluster, r: nat)
    requires Shaped(s, k) && r < s.n
  {
    k.replicas[r].eofs != [] ==>
      && r == s.leader
      && (forall q :: 0 <= q < s.n ==> k.replicas[q].fate == DRAINED)
      && k.replicas[r].eofs == seq(|s.routing.dests|, i requires 0 <= i < |s.routing.dests| =>
           (s.routing.dests[i], Total(Routeds(s, k, s.routing.logicalOf(s.routing.dests[i])))))
  }

  ghost predicate Inv(s: Setup, k: Cluster) {
    && Shaped(s, k)
    && (forall r, t :: 0 <= r < s.n && t in k.replicas[r].tallies ==> TallyOk(s, k, t))
    && (forall m :: m in k.net ==> PeerOk(s, k, m.1))
    && (forall r :: 0 <= r < s.n ==> AcksOk(s, k, k.replicas[r]) && EofsOk(s, k, r))
    && (s.n > 1 ==> forall r :: 0 <= r < s.n && k.replicas[r].fate == DRAINED ==> s.total <= Total(Evers(s, k)))
  }
}
