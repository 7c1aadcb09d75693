/** Durable identifiers for outgoing messages. */
module Sequencing {
  import opened Prelude
  import opened Text
  import opened Messages
  import opened Dedup

  datatype EdgeSpec = EdgeSpec(senderId: nat, shardCount: nat)

  /** The static part of a sequencer. `digest` stands for the sha256 sharding of a payload. */
  datatype Config = Config(node: string, edges: map<string, EdgeSpec>, digest: (Bytes, nat) -> nat)

  /** A business output before stamping. */
  datatype Logical = Logical(destination: string, body: Packet, shard: Option<nat>)

  /** What a sequence counter is kept for. */
  datatype Lane =
    | PlainLane(client: nat)
    | AddressedLane(client: nat, edge: string, shard: nat)

  /** The persisted counters. */
  datatype SeqView = SeqView(nextSeq: map<nat, nat>, nextAddr: map<(nat, string, nat), nat>) {
    function Counter(lane: Lane): nat {
      match lane
      case PlainLane(c) => Get(nextSeq, c, 0)
      case AddressedLane(c, e, s) => Get(nextAddr, (c, e, s), 0)
    }

    function Set(lane: Lane, n: nat): SeqView {
      match lane
      case PlainLane(c) => this.(nextSeq := nextSeq[c := n])
      case AddressedLane(c, e, s) => this.(nextAddr := nextAddr[(c, e, s) := n])
    }
  }

  const NO_COUNTERS := SeqView(map[], map[])

  function Join(a: string, b: string): string { a + [':'] + b }

  /** The colon-separated part of an output id. */
  function IdHead(node: string, lane: Lane, seqNo: nat): string {
    match lane
    case PlainLane(c) => Join(node, Join(Decimal(c), Decimal(seqNo)))
    case AddressedLane(c, e, s) =>
      Join(node, Join(Decimal(c), Join(e, Join(Decimal(s), Decimal(seqNo)))))
  }

  function OutputId(node: string, lane: Lane, seqNo: nat, index: nat): string {
    IdHead(node, lane, seqNo) + "#" + Decimal(index)
  }

  datatype Parsed =
    | Numbered(lane: Lane, seqNo: nat)
    | Ignored     // neither two nor four colons
    | Malformed   // no '#', or a field that is not a number

  function Parse(outputId: string): Parsed {
    var head := BeforeLast(outputId, '#');
    if head.None? then Malformed
    else
      var f := Split(head.value, ':');
      if |f| == 3 then
        var client, seqNo := ParseNat(f[1]), ParseNat(f[2]);
        if client.Ok? && seqNo.Ok? then Numbered(PlainLane(client.value), seqNo.value) else Malformed
      else if |f| == 5 then
        var client, shard, seqNo := ParseNat(f[1]), ParseNat(f[3]), ParseNat(f[4]);
        if client.Ok? && shard.Ok? && seqNo.Ok?
        then Numbered(AddressedLane(client.value, f[2], shard.value), seqNo.value) else Malformed
      else Ignored
  }

  predicate ColonFree(lane: Lane) {
    lane.AddressedLane? ==> ':' !in lane.edge
  }

  /** Joining puts the fields of both sides after each other, whether or not they hold colons. */
  lemma JoinFields(a: string, b: string)
    ensures Split(Join(a, b), ':') == Split(a, ':') + Split(b, ':')
  {
    var fa, fb := Split(a, ':'), Split(b, ':');
    var tail := [':'] + b;
    assert tail[1..] == b;
    assert Split(tail, ':') == [[]] + fb;
    assert Join(a, b) == a + tail;
    SplitPlus(a, tail, ':');
    GlueIs(fa, [[]] + fb);
    assert fa[|fa| - 1] + [] == fa[|fa| - 1];
    assert ([[]] + fb)[1..] == fb;
  }

  lemma JoinFree(a: string, b: string)
    requires ':' !in a
    ensures Split(Join(a, b), ':') == [a] + Split(b, ':')
  {
    SplitFree(a, ':');
    JoinFields(a, b);
  }

  lemma Join3(a: string, b: string, c: string)
    requires ':' !in a && ':' !in b && ':' !in c
    ensures Split(Join(a, Join(b, c)), ':') == [a, b, c]
  {
    hide Join, Split;
    SplitFree(c, ':');
    JoinFree(b, c);
    JoinFree(a, Join(b, c));
  }

  lemma Join5(a: string, b: string, e: string, c: string, d: string)
    requires ':' !in a && ':' !in b && ':' !in c && ':' !in d
    ensures Split(Join(a, Join(b, Join(e, Join(c, d)))), ':') == [a, b] + Split(e, ':') + [c, d]
  {
    hide Join, Split;
    SplitFree(d, ':');
    JoinFree(c, d);
    JoinFields(e, Join(c, d));
    JoinFree(b, Join(e, Join(c, d)));
    JoinFree(a, Join(b, Join(e, Join(c, d))));
  }

  lemma HeadFields(node: string, lane: Lane, seqNo: nat)
    requires ':' !in node
    ensures lane.PlainLane? ==>
            Split(IdHead(node, lane, seqNo), ':') == [node, Decimal(lane.client), Decimal(seqNo)]
    ensures lane.AddressedLane? ==>
            Split(IdHead(node, lane, seqNo), ':') ==
            [node, Decimal(lane.client)] + Split(lane.edge, ':') + [Decimal(lane.shard), Decimal(seqNo)]
  {
    hide Join, Split, Decimal;
    DigitsAvoid(Decimal(lane.client), ':');
    DigitsAvoid(Decimal(seqNo), ':');
    match lane
    case PlainLane(c) =>
      Join3(node, Decimal(c), Decimal(seqNo));
    case AddressedLane(c, e, s) =>
      DigitsAvoid(Decimal(s), ':');
      Join5(node, Decimal(c), e, Decimal(s), Decimal(seqNo));
  }

  /** Parsing inverts stamping exactly when the edge name has no colon. */
  lemma ParseInvertsOutputId(node: string, lane: Lane, seqNo: nat, index: nat)
    requires ':' !in node
    ensures Parse(OutputId(node, lane, seqNo, index)) ==
            if ColonFree(lane) then Numbered(lane, seqNo) else Ignored
  {
    DigitsAvoid(Decimal(index), '#');
    BeforeLastTail(IdHead(node, lane, seqNo), '#', Decimal(index));
    HeadFields(node, lane, seqNo);
    ParseInvertsDecimal(lane.client);
    ParseInvertsDecimal(seqNo);
    if lane.AddressedLane? {
      ParseInvertsDecimal(lane.shard);
      SplitFree(lane.edge, ':');
    }
  }

  /** The counter a logical output draws its number from. */
  function LaneFor(cfg: Config, client: nat, out: Logical): Lane {
    if out.destination !in cfg.edges then PlainLane(client)
    else AddressedLane(client, out.destination,
                       if out.shard.Some? then out.shard.value
                       else cfg.digest(out.body.payload, cfg.edges[out.destination].shardCount))
  }

  /** How many of the first `n` outputs draw from `lane`. */
  function Drawn(cfg: Config, client: nat, outs: seq<Logical>, n: nat, lane: Lane): nat
    requires n <= |outs|
  {
    if n == 0 then 0
    else Drawn(cfg, client, outs, n - 1, lane) + (if LaneFor(cfg, client, outs[n - 1]) == lane then 1 else 0)
  }

  function StampedEntry(cfg: Config, v: SeqView, client: nat, input: string, outs: seq<Logical>, i: nat): Entry
    requires i < |outs|
  {
    var out := outs[i];
    var lane := LaneFor(cfg, client, out);
    var seqNo := v.Counter(lane) + Drawn(cfg, client, outs, i, lane);
    Entry(OutputId(cfg.node, lane, seqNo, i), input, out.destination,
          if lane.PlainLane? then out.body
          else Addressed(out.body.msgType, client, cfg.edges[out.destination].senderId, seqNo, out.body.payload),
          if lane.PlainLane? then out.shard else Some(lane.shard))
  }

  function Stamped(cfg: Config, v: SeqView, client: nat, input: string, outs: seq<Logical>): (entries: seq<Entry>)
    ensures |entries| == |outs|
  {
    seq(|outs|, i requires 0 <= i < |outs| => StampedEntry(cfg, v, client, input, outs, i))
  }

  function ObserveOne(v: SeqView, e: Entry): SeqView {
    var p := Parse(e.outputId);
    if p.Numbered? && p.seqNo + 1 > v.Counter(p.lane) then v.Set(p.lane, p.seqNo + 1) else v
  }

  function ObserveAll(v: SeqView, entries: seq<Entry>): SeqView {
    if entries == [] then v
    else ObserveOne(ObserveAll(v, entries[..|entries| - 1]), entries[|entries| - 1])
  }

  class SenderSequencer {
    const cfg: Config
    var nextSeq: map<nat, nat>
    var nextAddr: map<(nat, string, nat), nat>

    ghost function View(): SeqView
      reads this
    {
      SeqView(nextSeq, nextAddr)
    }

    constructor (cfg: Config, saved: SeqView)
      requires ':' !in cfg.node
      ensures this.cfg == cfg && View() == saved
    {
      this.cfg, nextSeq, nextAddr := cfg, saved.nextSeq, saved.nextAddr;
    }

    /** Turns logical outputs into outbox entries from the current counters, without advancing them. */
    method Stamp(client: nat, input: string, outputs: seq<Logical>) returns (entries: seq<Entry>)
      ensures entries == Stamped(cfg, View(), client, input, outputs)
    {
      hide OutputId;
      var localPlain: map<nat, nat> := map[];
      var localAddr: map<(nat, string, nat), nat> := map[];
      entries := [];
      for index := 0 to |outputs|
        invariant Get(localPlain, client, 0) == Drawn(cfg, client, outputs, index, PlainLane(client))
        invariant forall lane: Lane :: lane.AddressedLane? && lane.client == client ==>
                    Get(localAddr, (client, lane.edge, lane.shard), 0) == Drawn(cfg, client, outputs, index, lane)
        invariant |entries| == index
        invariant forall k :: 0 <= k < index ==> entries[k] == StampedEntry(cfg, View(), client, input, outputs, k)
      {
        var out := outputs[index];
        if out.destination !in cfg.edges {
          var offset := Get(localPlain, client, 0);
          localPlain := localPlain[client := offset + 1];
          var seqNo := Get(nextSeq, client, 0) + offset;
          entries := entries + [Entry(OutputId(cfg.node, PlainLane(client), seqNo, index),
                                      input, out.destination, out.body, out.shard)];
        } else {
          var spec := cfg.edges[out.destination];
          var shard := if out.shard.Some? then out.shard.value else cfg.digest(out.body.payload, spec.shardCount);
          var bucket := (client, out.destination, shard);
          var offset := Get(localAddr, bucket, 0);
          localAddr := localAddr[bucket := offset + 1];
          var seqNo := Get(nextAddr, bucket, 0) + offset;
          var body := Addressed(out.body.msgType, client, spec.senderId, seqNo, out.body.payload);
          entries := entries + [Entry(OutputId(cfg.node, AddressedLane(client, out.destination, shard), seqNo, index),
                                      input, out.destination, body, Some(shard))];
        }
      }
    }

    /** Advances the counters past already stamped outputs. */
    method Observe(outputs: seq<Entry>)
      modifies this
      ensures View() == ObserveAll(old(View()), outputs)
    {
      for i := 0 to |outputs|
        invariant View() == ObserveAll(old(View()), outputs[..i])
      {
        assert outputs[..i + 1][..i] == outputs[..i];
        match Parse(outputs[i].outputId)
        case Numbered(PlainLane(client), seqNo) =>
          if seqNo + 1 > Get(nextSeq, client, 0) {
            nextSeq := nextSeq[client := seqNo + 1];
          }
        case Numbered(AddressedLane(client, edge, shard), seqNo) =>
          if seqNo + 1 > Get(nextAddr, (client, edge, shard), 0) {
            nextAddr := nextAddr[(client, edge, shard) := seqNo + 1];
          }
        case _ =>
      }
      assert outputs[..|outputs|] == outputs;
    }
  }

  /** The sequence numbers stamped for one lane, in order. */
  function Numbers(entries: seq<Entry>, lane: Lane): seq<nat> {
    if entries == [] then []
    else
      var p := Parse(entries[|entries| - 1].outputId);
      Numbers(entries[..|entries| - 1], lane) + (if p.Numbered? && p.lane == lane then [p.seqNo] else [])
  }

  /** Every lane is numbered 0, 1, 2, ... without gap or repeat. */
  ghost predicate Consecutive(entries: seq<Entry>) {
    && (forall i :: 0 <= i < |entries| ==> Parse(entries[i].outputId).Numbered?)
    && (forall lane :: Numbers(entries, lane) == InOrder(|Numbers(entries, lane)|))
  }

  /** The counters stand just past the stamped numbers. */
  ghost predicate Counts(v: SeqView, entries: seq<Entry>) {
    forall lane :: v.Counter(lane) == |Numbers(entries, lane)|
  }

  ghost predicate Wellnamed(cfg: Config) {
    && ':' !in cfg.node
    && (forall e :: e in cfg.edges ==> ':' !in e)
  }

  lemma NumbersSnoc(entries: seq<Entry>, e: Entry, lane: Lane)
    ensures var p := Parse(e.outputId);
            Numbers(entries + [e], lane) ==
            Numbers(entries, lane) + (if p.Numbered? && p.lane == lane then [p.seqNo] else [])
  {
    assert (entries + [e])[..|entries|] == entries;
  }

  /** One more entry, numbered by its lane's counter, keeps numbering consecutive and counted. */
  lemma ConsecutiveSnoc(v: SeqView, entries: seq<Entry>, e: Entry, lane: Lane)
    requires Consecutive(entries) && Counts(v, entries)
    requires Parse(e.outputId) == Numbered(lane, v.Counter(lane))
    ensures Consecutive(entries + [e]) && Counts(ObserveOne(v, e), entries + [e])
  {
    forall l
      ensures Numbers(entries + [e], l) == InOrder(|Numbers(entries + [e], l)|)
      ensures ObserveOne(v, e).Counter(l) == |Numbers(entries + [e], l)|
    {
      NumbersSnoc(entries, e, l);
      assert Numbers(entries, l) == InOrder(|Numbers(entries, l)|);
      assert v.Counter(l) == |Numbers(entries, l)|;
    }
  }

  lemma ObserveSnoc(v: SeqView, entries: seq<Entry>, e: Entry)
    ensures ObserveAll(v, entries + [e]) == ObserveOne(ObserveAll(v, entries), e)
  {
    assert (entries + [e])[..|entries|] == entries;
  }

  /** Observing an entry numbered by its lane's counter advances that lane by one. */
  lemma ObserveAdvances(v: SeqView, e: Entry, lane: Lane, l: Lane)
    requires Parse(e.outputId) == Numbered(lane, v.Counter(lane))
    ensures ObserveOne(v, e).Counter(l) == v.Counter(l) + if l == lane then 1 else 0
  {
  }

  /** The entry stamped at position `i` is numbered by its lane's counter and the draws before it. */
  lemma StampedNumber(cfg: Config, v: SeqView, client: nat, input: string, outs: seq<Logical>, i: nat)
    requires Wellnamed(cfg) && i < |outs|
    ensures var lane := LaneFor(cfg, client, outs[i]);
            Parse(Stamped(cfg, v, client, input, outs)[i].outputId) ==
            Numbered(lane, v.Counter(lane) + Drawn(cfg, client, outs, i, lane))
  {
    hide OutputId, Parse, Drawn, SeqView.Counter;
    var lane := LaneFor(cfg, client, outs[i]);
    assert Stamped(cfg, v, client, input, outs)[i] == StampedEntry(cfg, v, client, input, outs, i);
    hide Stamped;
    ParseInvertsOutputId(cfg.node, lane, v.Counter(lane) + Drawn(cfg, client, outs, i, lane), i);
  }

  /** The shard of an output on an addressed edge: its own, or the one its payload hashes to. */
  function ShardOf(cfg: Config, out: Logical): nat
    requires out.destination in cfg.edges
  {
    if out.shard.Some? then out.shard.value else cfg.digest(out.body.payload, cfg.edges[out.destination].shardCount)
  }

  /** An entry carries its output: unchanged on a plain edge; on an addressed edge the message type and the payload,
      under the client and the edge's sender id, with the number its id says, on the output's shard. */
  ghost predicate Conveys(cfg: Config, client: nat, input: string, out: Logical, e: Entry) {
    var p := Parse(e.outputId);
    && e.inputId == input && e.destination == out.destination && p.Numbered?
    && (out.destination !in cfg.edges ==> e.body == out.body && e.shard == out.shard && p.lane == PlainLane(client))
    && (out.destination in cfg.edges ==>
          && e.shard == Some(ShardOf(cfg, out))
          && p.lane == AddressedLane(client, out.destination, ShardOf(cfg, out))
          && var sender := cfg.edges[out.destination].senderId;
             e.body == Addressed(out.body.msgType, client, sender, p.seqNo, out.body.payload))
  }

  lemma StampedConveys(cfg: Config, v: SeqView, client: nat, input: string, outs: seq<Logical>, i: nat)
    requires Wellnamed(cfg) && i < |outs|
    ensures Conveys(cfg, client, input, outs[i], Stamped(cfg, v, client, input, outs)[i])
  {
    hide Parse, OutputId, Drawn;
    StampedNumber(cfg, v, client, input, outs, i);
    assert Stamped(cfg, v, client, input, outs)[i] == StampedEntry(cfg, v, client, input, outs, i);
  }

  lemma DrawnNext(cfg: Config, client: nat, outs: seq<Logical>, n: nat, lane: Lane)
    requires n < |outs|
    ensures Drawn(cfg, client, outs, n + 1, lane) ==
            Drawn(cfg, client, outs, n, lane) + if LaneFor(cfg, client, outs[n]) == lane then 1 else 0
  {
  }

  /** Stamping after any consecutive history, then observing, is consecutive again: the numbers
      of a (client, edge, shard) lane never skip or repeat. */
  lemma {:induction false} StampingIsConsecutive(cfg: Config, v: SeqView, history: seq<Entry>,
                                                 client: nat, input: string, outs: seq<Logical>, n: nat)
    requires Wellnamed(cfg) && n <= |outs|
    requires Consecutive(history) && Counts(v, history)
    ensures var more := Stamped(cfg, v, client, input, outs)[..n];
            && Consecutive(history + more)
            && Counts(ObserveAll(v, more), history + more)
    ensures forall lane :: ObserveAll(v, Stamped(cfg, v, client, input, outs)[..n]).Counter(lane) ==
                           v.Counter(lane) + Drawn(cfg, client, outs, n, lane)
    decreases n
  {
    hide Parse, Consecutive, Counts, ObserveOne, SeqView.Counter, Stamped, LaneFor, Wellnamed;
    var all := Stamped(cfg, v, client, input, outs);
    if n == 0 {
      assert history + all[..0] == history && all[..0] == [];
    } else {
      hide ObserveAll, Drawn;
      StampingIsConsecutive(cfg, v, history, client, input, outs, n - 1);
      var e, lane := all[n - 1], LaneFor(cfg, client, outs[n - 1]);
      var before := ObserveAll(v, all[..n - 1]);
      StampedNumber(cfg, v, client, input, outs, n - 1);
      assert all[..n] == all[..n - 1] + [e];
      assert history + all[..n] == (history + all[..n - 1]) + [e];
      ObserveSnoc(v, all[..n - 1], e);
      ConsecutiveSnoc(before, history + all[..n - 1], e, lane);
      forall l ensures ObserveAll(v, all[..n]).Counter(l) == v.Counter(l) + Drawn(cfg, client, outs, n, l) {
        ObserveAdvances(before, e, lane, l);
        DrawnNext(cfg, client, outs, n - 1, l);
      }
    }
  }

  lemma {:induction false} NumbersPosition(entries: seq<Entry>, i: nat, lane: Lane)
    requires i < |entries|
    requires Parse(entries[i].outputId).Numbered? && Parse(entries[i].outputId).lane == lane
    ensures |Numbers(entries[..i], lane)| < |Numbers(entries, lane)|
    ensures Numbers(entries, lane)[|Numbers(entries[..i], lane)|] == Parse(entries[i].outputId).seqNo
  {
    var n := |entries|;
    assert entries == entries[..n - 1] + [entries[n - 1]];
    if i < n - 1 {
      assert entries[..n - 1][..i] == entries[..i];
      NumbersPosition(entries[..n - 1], i, lane);
    }
  }

  lemma {:induction false} NumbersGrow(entries: seq<Entry>, i: nat, lane: Lane)
    requires i <= |entries|
    ensures Numbers(entries[..i], lane) <= Numbers(entries, lane)
  {
    if i == |entries| {
      assert entries[..i] == entries;
    } else {
      assert entries[..|entries| - 1][..i] == entries[..i];
      NumbersGrow(entries[..|entries| - 1], i, lane);
    }
  }

  /** Consecutive numbering makes all output ids distinct. */
  lemma DistinctIds(entries: seq<Entry>, i: nat, j: nat)
    requires Consecutive(entries) && i < j < |entries|
    ensures entries[i].outputId != entries[j].outputId
  {
    if entries[i].outputId == entries[j].outputId {
      var p := Parse(entries[j].outputId);
      NumbersPosition(entries, i, p.lane);
      NumbersPosition(entries, j, p.lane);
      assert entries[..j][..i] == entries[..i];
      NumbersPosition(entries[..j], i, p.lane);
    }
  }

  /** The next number is fresh exactly when the edge name has no colon: on an edge with a colon the
      persisted id is not recognised, the counter stands still and the id is handed out again. */
  lemma AdvancesIffColonFree(cfg: Config, v: SeqView, client: nat, input: string, out: Logical)
    requires ':' !in cfg.node
    ensures var lane := LaneFor(cfg, client, out);
            var first := Stamped(cfg, v, client, input, [out]);
            var second := Stamped(cfg, ObserveAll(v, first), client, input, [out]);
            && (first[0].outputId != second[0].outputId <==> ColonFree(lane))
            && (ObserveAll(v, first).Counter(lane) == v.Counter(lane) + 1 <==> ColonFree(lane))
  {
    var lane := LaneFor(cfg, client, out);
    var first := Stamped(cfg, v, client, input, [out]);
    assert Drawn(cfg, client, [out], 0, lane) == 0;
    assert first[..0] == [];
    assert ObserveAll(v, first) == ObserveOne(v, first[0]);
    ParseInvertsOutputId(cfg.node, lane, v.Counter(lane), 0);
    ParseInvertsOutputId(cfg.node, lane, v.Counter(lane) + 1, 0);
  }
}
