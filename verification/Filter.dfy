/** What a filter replica does with each kind of message: the change it logs and the outputs it stamps. */
module Filters {
  import opened Prelude
  import opened BatchBuffers
  import opened EofCoordination
  import opened FilterStates

  datatype Transaction = Transaction(date: string, fromBank: string, fromAccount: string,
                                     toBank: string, toAccount: string, amount: real,
                                     currency: string, format: string, rowNumber: nat)

  /** Routes of a transaction as (destination, logical output) pairs, its serialized form, the
      destinations that get an end-of-stream message, and the logical output of each. */
  datatype Routing = Routing(route: Transaction -> seq<(string, string)>, serialize: Transaction -> Bytes,
                             dests: seq<string>, logicalOf: string -> string)

  /** Messages between replicas. */
  datatype Peer =
    | Ctrl(message: Message)
    | Flushed(sender: nat, forwarded: Counts)

  /** The logged change, the DATA batches and EOF totals by destination, and (replica, message) pairs. */
  datatype Business = Business(change: Change, data: map<string, seq<Batch>>, eofs: seq<(string, nat)>,
                               messages: seq<(nat, Peer)>)

  function AddRoutes(m: Appends, routes: seq<(string, string)>, payload: Bytes): Appends {
    if routes == [] then m
    else
      var before, d := AddRoutes(m, routes[..|routes| - 1], payload), routes[|routes| - 1].0;
      before[d := Get(before, d, []) + [payload]]
  }

  function AddHits(m: Counts, routes: seq<(string, string)>): Counts {
    if routes == [] then m
    else
      var before, l := AddHits(m, routes[..|routes| - 1]), routes[|routes| - 1].1;
      before[l := Get(before, l, 0) + 1]
  }

  function AppendsOf(r: Routing, txs: seq<Transaction>): Appends {
    if txs == [] then map[]
    else
      var tx := txs[|txs| - 1];
      AddRoutes(AppendsOf(r, txs[..|txs| - 1]), r.route(tx), r.serialize(tx))
  }

  function CountsOf(r: Routing, txs: seq<Transaction>): Counts {
    if txs == [] then map[]
    else AddHits(CountsOf(r, txs[..|txs| - 1]), r.route(txs[|txs| - 1]))
  }

  function DataBusiness(r: Routing, s: Site, v: FilterView, client: nat, txs: seq<Transaction>): Business {
    if v.closed || txs == [] then Business(Data(client, 0, map[], map[]), map[], [], [])
    else
      var appends := AppendsOf(r, txs);
      Business(Data(client, |txs|, appends, CountsOf(r, txs)),
               map d | d in appends :: AppendAll(s.lim, Get(v.buffer, d, []), appends[d]).flushed, [], [])
  }

  function DrainBatches(v: FilterView): map<string, seq<Batch>> {
    map d | d in v.buffer :: [v.buffer[d]]
  }

  /** One end-of-stream total per destination: the count of its logical output. */
  function EofTotals(r: Routing, counts: Counts): seq<(string, nat)> {
    seq(|r.dests|, i requires 0 <= i < |r.dests| => (r.dests[i], Get(counts, r.logicalOf(r.dests[i]), 0)))
  }

  function ToAll(n: nat, m: Message): seq<(nat, Peer)> {
    seq(n, i => (i, Ctrl(m)))
  }

  function UpstreamEofBusiness(r: Routing, s: Site, v: FilterView, client: nat, total: nat): Business {
    var change := UpstreamEof(client, total, v.processed);
    if s.n > 1 then Business(change, map[], [], ToAll(s.n, Message(EOF_RECEIVED, Control(s.me, total, 0))))
    else Business(Compound([change, Close(client)]), DrainBatches(v), EofTotals(r, v.forwarded), [])
  }

  /** `forwarded` is the sum the answer reports beside the processed count; nobody reads it. */
  function EofReceivedBusiness(s: Site, v: FilterView, client: nat, c: Control, forwarded: nat): Business {
    var action := OnEofReceived(s.me, v.coord, c, v.processed, forwarded).action;
    Business(ControlMessage(client, Message(EOF_RECEIVED, c), v.processed, forwarded), map[], [],
             if action.SendAnswer? then [(action.leader, Ctrl(action.message))] else [])
  }

  function FlushOrderBusiness(s: Site, v: FilterView, client: nat, leader: nat): Business {
    Business(Compound([Cleanup(client, false), Close(client)]), DrainBatches(v), [],
             [(leader, Flushed(s.me, v.forwarded))])
  }

  function FlushAckBusiness(r: Routing, s: Site, v: FilterView, client: nat, sender: nat, counts: Counts): Business {
    var change := FlushAckFrom(client, sender, counts);
    if |v.acks| + 1 < s.n - 1 then Business(change, map[], [], [])
    else
      Business(Compound([change, Cleanup(client, true), Close(client)]), DrainBatches(v),
               EofTotals(r, Sum(Sum(v.allForwarded, counts), v.forwarded)), [])
  }

  function AbortBusiness(client: nat): Business {
    Business(Compound([Cleanup(client, false), Close(client)]), map[], [], [])
  }

  /** A first-time FLUSH_ORDER is acted on by an open non-leader only. */
  predicate ObeysFlush(v: FilterView) { !v.closed && v.coord.expected.None? }

  /** Which is what the coordinator answers. */
  lemma ObeysAsCoordinated(v: FilterView, c: Control)
    requires !v.closed
    ensures OnFlushOrder(v.coord, c) == Outcome(v.coord, if ObeysFlush(v) then FlushAsFollower(c.sender) else Nothing)
  {
  }

  /** A first-time FLUSH_ACK is acted on by an open leader only. */
  predicate CountsAcks(v: FilterView) { !v.closed && v.coord.expected.Some? }

  /** Payloads of `txs` routed to destination `d`, in order. */
  function Copies(routes: seq<(string, string)>, d: string, payload: Bytes): seq<Bytes> {
    if routes == [] then []
    else if routes[|routes| - 1].0 == d then Copies(routes[..|routes| - 1], d, payload) + [payload]
    else Copies(routes[..|routes| - 1], d, payload)
  }

  function RoutedTo(r: Routing, txs: seq<Transaction>, d: string): seq<Bytes> {
    if txs == [] then []
    else
      var tx := txs[|txs| - 1];
      RoutedTo(r, txs[..|txs| - 1], d) + Copies(r.route(tx), d, r.serialize(tx))
  }

  /** Number of times `txs` are routed to logical output `l`. */
  function Hits(routes: seq<(string, string)>, l: string): nat {
    if routes == [] then 0
    else Hits(routes[..|routes| - 1], l) + if routes[|routes| - 1].1 == l then 1 else 0
  }

  function RoutedCount(r: Routing, txs: seq<Transaction>, l: string): nat {
    if txs == [] then 0
    else RoutedCount(r, txs[..|txs| - 1], l) + Hits(r.route(txs[|txs| - 1]), l)
  }

  lemma {:induction false} AddRoutesAt(m: Appends, routes: seq<(string, string)>, payload: Bytes, d: string)
    ensures Get(AddRoutes(m, routes, payload), d, []) == Get(m, d, []) + Copies(routes, d, payload)
  {
    if routes == [] {
      assert Get(m, d, []) + [] == Get(m, d, []);
    } else {
      AddRoutesAt(m, routes[..|routes| - 1], payload, d);
    }
  }

  lemma {:induction false} AppendsAt(r: Routing, txs: seq<Transaction>, d: string)
    ensures Get(AppendsOf(r, txs), d, []) == RoutedTo(r, txs, d)
  {
    if txs != [] {
      var init, tx := txs[..|txs| - 1], txs[|txs| - 1];
      AppendsAt(r, init, d);
      AddRoutesAt(AppendsOf(r, init), r.route(tx), r.serialize(tx), d);
    }
  }

  lemma {:induction false} AddHitsAt(m: Counts, routes: seq<(string, string)>, l: string)
    ensures Get(AddHits(m, routes), l, 0) == Get(m, l, 0) + Hits(routes, l)
  {
    if routes != [] {
      AddHitsAt(m, routes[..|routes| - 1], l);
    }
  }

  lemma {:induction false} CountsAt(r: Routing, txs: seq<Transaction>, l: string)
    ensures Get(CountsOf(r, txs), l, 0) == RoutedCount(r, txs, l)
  {
    if txs != [] {
      var init := txs[..|txs| - 1];
      CountsAt(r, init, l);
      AddHitsAt(CountsOf(r, init), r.route(txs[|txs| - 1]), l);
    }
  }

  lemma {:induction false} RoutedToPlus(r: Routing, a: seq<Transaction>, b: seq<Transaction>, d: string)
    ensures RoutedTo(r, a + b, d) == RoutedTo(r, a, d) + RoutedTo(r, b, d)
  {
    if b == [] {
      assert a + b == a;
    } else {
      assert (a + b)[..|a + b| - 1] == a + b[..|b| - 1];
      RoutedToPlus(r, a, b[..|b| - 1], d);
    }
  }

  lemma {:induction false} RoutedCountPlus(r: Routing, a: seq<Transaction>, b: seq<Transaction>, l: string)
    ensures RoutedCount(r, a + b, l) == RoutedCount(r, a, l) + RoutedCount(r, b, l)
  {
    if b == [] {
      assert a + b == a;
    } else {
      assert (a + b)[..|a + b| - 1] == a + b[..|b| - 1];
      RoutedCountPlus(r, a, b[..|b| - 1], l);
    }
  }

  lemma JoinedOne(b: Batch)
    ensures Joined([b]) == [Concat(b)]
  {
  }

  function JoinedBy(data: map<string, seq<Batch>>): map<string, seq<Bytes>> {
    map d | d in data :: Joined(data[d])
  }

  class FilterWorker {
    const routing: Routing
    const state: FilterState

    ghost predicate Valid()
      reads state, state.coordinator, state.buffer
    {
      state.Valid()
    }

    constructor (r: Routing, s: Site)
      ensures Valid() && routing == r && state.site == s && fresh(state)
    {
      routing := r;
      state := new FilterState(s);
    }

    /** Filters and routes a DATA batch. */
    method DataProcessPayload(client: nat, txs: seq<Transaction>)
      returns (change: Change, data: map<string, seq<Bytes>>)
      requires Valid()
      ensures var b := DataBusiness(routing, state.site, state.View(client), client, txs);
              change == b.change && data == JoinedBy(b.data)
    {
      hide AppendAll, AppendsOf, CountsOf, Counted, Slice, Joined;
      if client in state.closedClients || txs == [] {
        return Data(client, 0, map[], map[]), map[];
      }
      var appends: Appends, counts: Counts := RouteAll(txs);
      data := state.PlanData(client, appends);
      change := Data(client, |txs|, appends, counts);
      assert data == JoinedBy(DataBusiness(routing, state.site, state.View(client), client, txs).data);
    }

    method RouteAll(txs: seq<Transaction>) returns (appends: Appends, counts: Counts)
      ensures appends == AppendsOf(routing, txs) && counts == CountsOf(routing, txs)
    {
      appends, counts := map[], map[];
      for i := 0 to |txs|
        invariant appends == AppendsOf(routing, txs[..i]) && counts == CountsOf(routing, txs[..i])
      {
        var routes, payload := routing.route(txs[i]), routing.serialize(txs[i]);
        ghost var appendsBefore, countsBefore := appends, counts;
        for j := 0 to |routes|
          invariant appends == AddRoutes(appendsBefore, routes[..j], payload)
          invariant counts == AddHits(countsBefore, routes[..j])
        {
          var dest, logical := routes[j].0, routes[j].1;
          assert routes[..j + 1][..j] == routes[..j];
          appends := appends[dest := Get(appends, dest, []) + [payload]];
          counts := counts[logical := Get(counts, logical, 0) + 1];
        }
        assert routes[..|routes|] == routes;
        assert txs[..i + 1][..i] == txs[..i];
      }
      assert txs[..|txs|] == txs;
    }

    /** DATA outputs for what is left in the buffer. */
    method DrainOutputs(client: nat) returns (data: map<string, seq<Bytes>>)
      requires Valid()
      ensures data == JoinedBy(DrainBatches(state.View(client)))
    {
      hide Counted, Slice, Joined, Concat;
      var left := state.PlanDrain(client);
      forall d | d in left {
        JoinedOne(state.View(client).buffer[d]);
      }
      data := map d | d in left :: [left[d]];
    }

    /** First delivery of the upstream end of stream for an open client. */
    method HandleUpstreamEof(client: nat, total: nat)
      returns (change: Change, data: map<string, seq<Bytes>>, eofs: seq<(string, nat)>, messages: seq<(nat, Peer)>)
      requires Valid()
      ensures var b := UpstreamEofBusiness(routing, state.site, state.View(client), client, total);
              change == b.change && data == JoinedBy(b.data) && eofs == b.eofs && messages == b.messages
    {
      var s := state.site;
      change := UpstreamEof(client, total, Get(state.processedByClient, client, 0));
      if s.n > 1 {
        return change, map[], [], ToAll(s.n, Message(EOF_RECEIVED, Control(s.me, total, 0)));
      }
      data := DrainOutputs(client);
      eofs := EofOutputs(Get(state.forwardedByOutput, client, map[]));
      change := Compound([change, Close(client)]);
      messages := [];
    }

    /** One EOF per destination, built in a loop over the destinations. */
    method EofOutputs(counts: Counts) returns (eofs: seq<(string, nat)>)
      ensures eofs == EofTotals(routing, counts)
    {
      eofs := [];
      for i := 0 to |routing.dests|
        invariant eofs == EofTotals(routing, counts)[..i]
      {
        eofs := eofs + [(routing.dests[i], Get(counts, routing.logicalOf(routing.dests[i]), 0))];
      }
    }

    /** First delivery of EOF_RECEIVED. The coordinator is moved already while the change is being computed, before
        it is logged; applying the logged change afterwards gives what applying it alone gives, so replay agrees. */
    method HandleEofReceived(client: nat, c: Control, forwarded: nat)
      returns (change: Change, messages: seq<(nat, Peer)>)
      requires Valid()
      modifies state.coordinator
      ensures Valid()
      ensures var b := EofReceivedBusiness(state.site, old(state.View(client)), client, c, forwarded);
              change == b.change && messages == b.messages
      ensures forall d ::
                Applied(state.site, state.View(d), d, change) == Applied(state.site, old(state.View(d)), d, change)
    {
      hide Slice, Counted;
      var count := Get(state.processedByClient, client, 0);
      var action := state.coordinator.ProcessControlMessage(client, Message(EOF_RECEIVED, c), count, forwarded);
      change := ControlMessage(client, Message(EOF_RECEIVED, c), count, forwarded);
      messages := if action.SendAnswer? then [(action.leader, Ctrl(action.message))] else [];
    }

    /** First delivery of FLUSH_ORDER; `None` when it is only acknowledged. */
    method HandleFlushOrder(client: nat, leader: nat)
      returns (change: Option<Change>, data: map<string, seq<Bytes>>, messages: seq<(nat, Peer)>)
      requires Valid()
      ensures var v := state.View(client);
              var b := FlushOrderBusiness(state.site, v, client, leader);
              if ObeysFlush(v) then change == Some(b.change) && data == JoinedBy(b.data) && messages == b.messages
              else change == None && data == map[] && messages == []
    {
      if client in state.closedClients || client in state.coordinator.leaderExpected {
        return None, map[], [];
      }
      data := DrainOutputs(client);
      var forwarded := Get(state.forwardedByOutput, client, map[]);
      change := Some(Compound([Cleanup(client, false), Close(client)]));
      messages := [(leader, Flushed(state.site.me, forwarded))];
    }

    /** First delivery of a FLUSH_ACK; the last one emits the end of stream and closes the client. */
    method HandleFlushAck(client: nat, sender: nat, counts: Counts)
      returns (change: Option<Change>, data: map<string, seq<Bytes>>, eofs: seq<(string, nat)>)
      requires Valid()
      ensures var v := state.View(client);
              var b := FlushAckBusiness(routing, state.site, v, client, sender, counts);
              if CountsAcks(v) then change == Some(b.change) && data == JoinedBy(b.data) && eofs == b.eofs
              else change == None && data == map[] && eofs == []
    {
      if client in state.closedClients || client !in state.coordinator.leaderExpected {
        return None, map[], [];
      }
      var newAckCount := |Get(state.flushedAcks, client, {})| + 1;
      var ack := FlushAckFrom(client, sender, counts);
      if newAckCount < state.site.n - 1 {
        return Some(ack), map[], [];
      }
      var total := AddInto(Get(state.allForwardedByOutput, client, map[]), counts);
      total := AddInto(total, Get(state.forwardedByOutput, client, map[]));
      data := DrainOutputs(client);
      eofs := EofOutputs(total);
      change := Some(Compound([ack, Cleanup(client, true), Close(client)]));
    }
  }
}
