/** The exactly-once link between two workers: a single-threaded producer, a FIFO queue that
    redelivers until acknowledged, and a single-threaded consumer, both crashing at will. */
module Link {
  import opened Prelude
  import opened Messages
  import opened Dedup
  import opened Inboxes
  import opened Outboxes
  import opened Sequencing
  import opened Engine
  import opened StateDisk
  import opened Runner

  /** One (client, edge, shard) of the producer and the sender id the consumer sees on it. Data and aborts of the
      client travel on it, numbered together and deduplicated apart. */
  datatype Route = Route(client: nat, edge: string, shard: nat, sender: nat) {
    function Lane(): Lane { AddressedLane(client, edge, shard) }

    predicate Owns(k: Key) { k.client == client && k.sender == sender && (k.kind == DATA || k.kind == ABORT) }
  }

  /** The message type of an abort packet. */
  const ABORT_TYPE: nat := 8

  /** The key the consumer reads from an addressed packet. */
  function PacketKey(b: Packet): Key
    requires b.Addressed?
  {
    Key(b.client, if b.msgType == ABORT_TYPE then ABORT else DATA, b.sender, b.seqNo)
  }

  /** A packet with number `n` of the route has been published, and the consumer reads `k` from it. */
  ghost predicate Delivers(route: Route, published: seq<Entry>, n: nat, k: Key) {
    exists e :: e in published && Parse(e.outputId) == Numbered(route.Lane(), n) && e.body.Addressed? &&
                k == PacketKey(e.body)
  }

  /** Numbers on the queue of the route, in publishing order. */
  function Stream(route: Route, published: seq<Entry>): seq<nat> {
    Numbers(published, route.Lane())
  }

  /** `acked` messages of the queue are gone; the one at that position is at its head. `owed` is an
      input the producer returned to the head of its own queue after a failed publish. */
  datatype Pair<S, C, T, D> = Pair(producer: World<S, C>, consumer: World<T, D>, acked: nat, owed: Option<Key>)

  datatype Move<C, D> = Produce(step: Step<C>) | Consume(step_: Step<D>)

  predicate SingleThreaded<C>(step: Step<C>) {
    match step
    case Handle(t, _, _, _) => t == 0
    case Publish(t) => t == 0
    case Commit(t) => t == 0
    case TakeSnapshot(t) => t == 0
    case Acknowledge(t) => t == 0
    case Nack(t) => t == 0
    case _ => true
  }

  ghost predicate CanMove<S, C, T, D>(route: Route, p: Worker<S, C>, c: Worker<T, D>, s: Pair<S, C, T, D>,
                                      move: Move<C, D>) {
    match move
    case Produce(step) =>
      && SingleThreaded(step) && Enabled(p, s.producer, step)
      && (step.Handle? && s.owed.Some? ==> step.key == s.owed.value)
    case Consume(step) =>
      && SingleThreaded(step) && Enabled(c, s.consumer, step)
      && (step.Handle? && route.Owns(step.key) ==>
            var stream := Stream(route, s.producer.published);
            s.acked < |stream| && Delivers(route, s.producer.published, stream[s.acked], step.key))
  }

  ghost function Moved<S, C, T, D>(route: Route, p: Worker<S, C>, c: Worker<T, D>, every: int,
                                   s: Pair<S, C, T, D>, move: Move<C, D>): Pair<S, C, T, D>
    requires CanMove(route, p, c, s, move)
  {
    match move
    case Produce(step) =>
      s.(producer := Next(p, every, s.producer, step),
         owed := if step.Nack? then Some(s.producer.At(0).key)
                 else if step.Handle? || step.Crash? then None else s.owed)
    case Consume(step) =>
      s.(consumer := Next(c, every, s.consumer, step),
         acked := if step.Acknowledge? && route.Owns(s.consumer.At(0).key) then s.acked + 1 else s.acked)
  }

  ghost function Runs<S, C, T, D>(route: Route, p: Worker<S, C>, c: Worker<T, D>, every: int,
                                  moves: seq<Move<C, D>>): Option<Pair<S, C, T, D>> {
    if moves == [] then Some(Pair(Boot(), Boot(), 0, None))
    else
      var before := Runs(route, p, c, every, moves[..|moves| - 1]);
      if before.Some? && CanMove(route, p, c, before.value, moves[|moves| - 1])
      then Some(Moved(route, p, c, every, before.value, moves[|moves| - 1])) else None
  }

  // ----- The producer side: nothing overtakes a smaller number -----

  /** Every number is preceded by all smaller ones. */
  ghost predicate NoOvertaking(stream: seq<nat>) {
    forall i, v :: 0 <= i < |stream| && 0 <= v < stream[i] ==> v in stream[..i]
  }

  ghost predicate Precedes(route: Route, published: seq<Entry>, rest: seq<Entry>, i: nat, v: nat)
    requires i < |rest|
  {
    v in Stream(route, published) || v in Stream(route, rest[..i])
  }

  /** Publishing `rest` in order after `published` overtakes nothing. */
  ghost predicate InTurn(route: Route, published: seq<Entry>, rest: seq<Entry>) {
    forall i, v :: 0 <= i < |rest| && 0 <= v < Number(route, rest[i]) ==> Precedes(route, published, rest, i, v)
  }

  /** The route number of an entry; 0 for entries of other routes, which wait for nothing. */
  function Number(route: Route, e: Entry): nat {
    var parsed := Parse(e.outputId);
    if parsed.Numbered? && parsed.lane == route.Lane() then parsed.seqNo else 0
  }

  lemma {:induction false} NumbersPlus(a: seq<Entry>, b: seq<Entry>, lane: Lane)
    ensures Numbers(a + b, lane) == Numbers(a, lane) + Numbers(b, lane)
  {
    if b == [] {
      assert a + b == a;
    } else {
      assert (a + b)[..|a + b| - 1] == a + b[..|b| - 1];
      NumbersPlus(a, b[..|b| - 1], lane);
    }
  }

  lemma {:induction false} NumbersMember(entries: seq<Entry>, lane: Lane, v: nat) returns (e: Entry)
    requires v in Numbers(entries, lane)
    ensures e in entries && Parse(e.outputId) == Numbered(lane, v)
  {
    var before, last := entries[..|entries| - 1], entries[|entries| - 1];
    if Parse(last.outputId) == Numbered(lane, v) {
      e := last;
    } else {
      e := NumbersMember(before, lane, v);
    }
  }

  lemma {:induction false} MemberNumbers(entries: seq<Entry>, lane: Lane, e: Entry, v: nat)
    requires e in entries && Parse(e.outputId) == Numbered(lane, v)
    ensures v in Numbers(entries, lane)
  {
    var before, last := entries[..|entries| - 1], entries[|entries| - 1];
    if e in before {
      MemberNumbers(before, lane, e, v);
    }
  }

  /** Publishing the first of a list in turn keeps the stream without overtaking. */
  lemma PublishInTurn(route: Route, published: seq<Entry>, rest: seq<Entry>)
    requires NoOvertaking(Stream(route, published)) && InTurn(route, published, rest) && rest != []
    ensures NoOvertaking(Stream(route, published + [rest[0]]))
    ensures InTurn(route, published + [rest[0]], rest[1..])
  {
    var stream := Stream(route, published);
    var longer := Stream(route, published + [rest[0]]);
    NumbersSnoc(published, rest[0], route.Lane());
    forall i, v | 0 <= i < |longer| && 0 <= v < longer[i]
      ensures v in longer[..i]
    {
      if i < |stream| {
        assert longer[..i] == stream[..i];
      } else {
        assert Precedes(route, published, rest, 0, v);
        assert rest[..0] == [];
        assert longer[..i] == stream;
      }
    }
    forall i, v | 0 <= i < |rest[1..]| && 0 <= v < Number(route, rest[1..][i])
      ensures Precedes(route, published + [rest[0]], rest[1..], i, v)
    {
      assert Number(route, rest[1..][i]) == Number(route, rest[i + 1]);
      assert Precedes(route, published, rest, i + 1, v);
      assert rest[..i + 1] == [rest[0]] + rest[1..][..i];
      NumbersPlus([rest[0]], rest[1..][..i], route.Lane());
      NumbersPlus(published, [rest[0]], route.Lane());
    }
  }

  lemma InTurnPlus(route: Route, published: seq<Entry>, a: seq<Entry>, b: seq<Entry>)
    requires InTurn(route, published, a) && InTurn(route, published, b)
    ensures InTurn(route, published, a + b)
  {
    forall i, v | 0 <= i < |a + b| && 0 <= v < Number(route, (a + b)[i])
      ensures Precedes(route, published, a + b, i, v)
    {
      if i < |a| {
        assert (a + b)[..i] == a[..i];
        assert Precedes(route, published, a, i, v);
      } else {
        assert (a + b)[..i] == a + b[..i - |a|];
        NumbersPlus(a, b[..i - |a|], route.Lane());
        assert Precedes(route, published, b, i - |a|, v);
      }
    }
  }

  /** The log before its last InputApplied record. */
  function Earlier<C>(log: seq<Record<C>>): seq<Record<C>> {
    if log == [] then []
    else if log[|log| - 1].InputApplied? then log[..|log| - 1]
    else Earlier(log[..|log| - 1])
  }

  lemma {:induction false} AllOutputsGrow<C>(log: seq<Record<C>>, i: nat)
    requires i <= |log|
    ensures AllOutputs(log[..i]) <= AllOutputs(log)
  {
    if i < |log| {
      assert log[..|log| - 1][..i] == log[..i];
      AllOutputsGrow(log[..|log| - 1], i);
    } else {
      assert log[..i] == log;
    }
  }

  lemma {:induction false} EarlierHolds<C>(log: seq<Record<C>>, i: nat)
    requires i < |log| && log[i].InputApplied?
    ensures AllOutputs(log[..i]) <= AllOutputs(Earlier(log))
  {
    var before := log[..|log| - 1];
    if log[|log| - 1].InputApplied? {
      assert before[..i] == log[..i];
      AllOutputsGrow(before, i);
    } else {
      assert before[..i] == log[..i];
      EarlierHolds(before, i);
    }
  }

  /** Once everything before the last applied input is published, the outputs of any input may be
      published, or published again, in their order. */
  lemma OutputsAreInTurn<S, C>(route: Route, w: Worker<S, C>, log: seq<Record<C>>, published: seq<Entry>, i: nat)
    requires Legal(w, log) && Wellnamed(w.cfg)
    requires i < |log| && log[i].InputApplied?
    requires AllPublished(AllOutputs(Earlier(log)), published)
    ensures InTurn(route, published, log[i].outputs)
  {
    hide Legal, Replay, Parse, Counts, Wellnamed;
    var lane := route.Lane();
    var pre, outs := AllOutputs(log[..i]), log[i].outputs;
    NumberingMeaning(w, log);
    AllOutputsGrow(log, i + 1);
    assert log[..i + 1][..i] == log[..i];
    assert AllOutputs(log[..i + 1]) == pre + outs;
    EarlierHolds(log, i);
    forall j, v | 0 <= j < |outs| && 0 <= v < Number(route, outs[j])
      ensures Precedes(route, published, outs, j, v)
    {
      var all := AllOutputs(log);
      var at := |pre| + j;
      assert all[at] == outs[j] && all[..at] == pre + outs[..j];
      NumbersPosition(all, at, lane);
      NumbersGrow(all, at, lane);
      assert Numbers(all, lane) == InOrder(|Numbers(all, lane)|);
      assert Numbers(all[..at], lane)[v] == v;
      NumbersPlus(pre, outs[..j], lane);
      if v in Numbers(pre, lane) {
        var e := NumbersMember(pre, lane, v);
        MemberNumbers(published, lane, e, v);
      }
    }
  }

  lemma {:induction false} RecordOf<C>(log: seq<Record<C>>, k: Key) returns (i: nat)
    requires k in AppliedKeys(log)
    ensures i < |log| && log[i].InputApplied? && log[i].key == k && log[i].outputs == OutputsOf(log, k)
  {
    var r := log[|log| - 1];
    if r.InputApplied? && r.key == k {
      i := |log| - 1;
    } else {
      i := RecordOf(log[..|log| - 1], k);
    }
  }

  lemma KeyOutputsInTurn<S, C>(route: Route, w: Worker<S, C>, log: seq<Record<C>>, published: seq<Entry>, k: Key)
    requires Legal(w, log) && Wellnamed(w.cfg) && k in AppliedKeys(log)
    requires AllPublished(AllOutputs(Earlier(log)), published)
    ensures InTurn(route, published, OutputsOf(log, k))
  {
    var i := RecordOf(log, k);
    OutputsAreInTurn(route, w, log, published, i);
  }

  /** The republished listing of a restart is in turn, in whatever order the inputs come. */
  lemma {:induction false} ListingInTurn<S, C>(route: Route, w: Worker<S, C>, log: seq<Record<C>>,
                                               published: seq<Entry>,
                                               order: seq<(nat, string)>)
    requires Legal(w, log) && Wellnamed(w.cfg) && Injective(w)
    requires AllPublished(AllOutputs(Earlier(log)), published)
    requires forall p :: p in order ==> p in Waiting(Replay(w, Initial(w), log).outbox)
    ensures InTurn(route, published, Listed(Replay(w, Initial(w), log).outbox, order))
  {
    var out := Replay(w, Initial(w), log).outbox;
    if order != [] {
      var before, last := order[..|order| - 1], order[|order| - 1];
      ListingInTurn(route, w, log, published, before);
      assert last in Waiting(out);
      var k := WaitingHasInput(w, log, last.0, last.1);
      OutboxMeaning(w, log, k);
      KeyOutputsInTurn(route, w, log, published, k);
      InTurnPlus(route, published, Listed(out, before), EntriesFor(out, last.0, last.1));
    }
  }

  /** What the producer still has to publish before it takes another input. */
  ghost function Backlog<S, C>(s: World<S, C>, owed: Option<Key>): seq<Entry> {
    if s.republish != [] then s.republish
    else if s.At(0).Publishing? && s.At(0).sent <= |s.At(0).outputs| then s.At(0).outputs[s.At(0).sent..]
    else if owed.Some? then OutputsOf(s.log, owed.value)
    else []
  }

  ghost predicate OnlyThreadZero<S, C>(s: World<S, C>) {
    forall t :: t in s.threads ==> t == 0
  }

  ghost predicate ProducerInv<S, C>(route: Route, w: Worker<S, C>, s: World<S, C>, owed: Option<Key>) {
    && Inv(w, s) && OnlyThreadZero(s)
    && NoOvertaking(Stream(route, s.published))
    && AllPublished(AllOutputs(Earlier(s.log)), s.published)
    && (s.memory.Some? ==>
          && InTurn(route, s.published, Backlog(s, owed))
          && AllPublished(AllOutputs(s.log), s.published + Backlog(s, owed)))
    && (owed.Some? ==>
          && s.memory.Some? && s.republish == [] && s.At(0).Idle?
          && owed.value in AppliedKeys(s.log) && owed.value !in DoneKeys(s.log))
    && (s.At(0).Publishing? ==> s.At(0).key !in DoneKeys(s.log))
  }

  lemma ProducerPublishes<S, C>(route: Route, w: Worker<S, C>, every: int, s: World<S, C>, owed: Option<Key>,
                                step: Step<C>)
    requires ProducerInv(route, w, s, owed) && Injective(w) && Enabled(w, s, step)
    requires step == Republish || step == Publish(0)
    ensures ProducerInv(route, w, Next(w, every, s, step), owed)
  {
    hide Inv, NoOvertaking, InTurn;
    var s' := Next(w, every, s, step);
    StepKeepsInv(w, every, s, step);
    assert step == Publish(0) ==> s.republish == [] by { ThreadsMeanNoRepublish(w, s); }
    var rest := Backlog(s, owed);
    PublishInTurn(route, s.published, rest);
    if step == Republish {
      assert s.At(0).Idle? by { ThreadsMeanNoRepublish(w, s); }
    } else {
      assert rest[1..] == s.At(0).outputs[s.At(0).sent + 1..];
    }
    assert Backlog(s', owed) == rest[1..];
    assert rest == [rest[0]] + rest[1..];
  }

  lemma ThreadsMeanNoRepublish<S, C>(w: Worker<S, C>, s: World<S, C>)
    requires Inv(w, s) && s.memory.Some?
    ensures s.republish != [] ==> s.At(0).Idle?
  {
  }

  lemma InvParts<S, C>(w: Worker<S, C>, s: World<S, C>)
    requires Inv(w, s)
    ensures Legal(w, s.log)
    ensures s.memory.Some? ==> s.memory.value == Replay(w, Initial(w), s.log)
  {
  }

  lemma ProducerHandlesNew<S, C>(route: Route, w: Worker<S, C>, every: int, s: World<S, C>, owed: Option<Key>,
                                 step: Step<C>)
    requires ProducerInv(route, w, s, owed) && Injective(w) && Wellnamed(w.cfg) && Enabled(w, s, step)
    requires step.Handle? && step.t == 0 && s.memory.value.inbox.Classify(step.key) == NEW
    requires owed.Some? ==> step.key == owed.value
    ensures ProducerInv(route, w, Next(w, every, s, step), None)
  {
    hide Inv, Legal, Replay, NoOvertaking, InTurn, Stamped, ObserveAll, Added, InboxView.MarkApplied,
         InboxView.Classify, AllOutputs, AppliedKeys, DoneKeys, OutputsOf;
    var s' := Next(w, every, s, step);
    StepKeepsInv(w, every, s, step);
    InvParts(w, s);
    InvParts(w, s');
    AppliedUnseen(w, s.log, step.key);
    assert owed == None && Backlog(s, owed) == [];
    assert s.published + [] == s.published;
    var (_, r) := HandledNew(w, s.memory.value, step.key, step.change, step.logical);
    assert s'.log[..|s.log|] == s.log;
    assert Earlier(s'.log) == s.log;
    LogSnoc(s.log, r, step.key);
    assert Backlog(s', None) == r.outputs[0..] == r.outputs;
    OutputsAreInTurn(route, w, s'.log, s.published, |s.log|);
  }

  lemma ProducerHandlesAgain<S, C>(route: Route, w: Worker<S, C>, every: int, s: World<S, C>, owed: Option<Key>,
                                   step: Step<C>)
    requires ProducerInv(route, w, s, owed) && Injective(w) && Wellnamed(w.cfg) && Enabled(w, s, step)
    requires step.Handle? && step.t == 0 && s.memory.value.inbox.Classify(step.key) != NEW
    requires owed.Some? ==> step.key == owed.value
    ensures ProducerInv(route, w, Next(w, every, s, step), None)
  {
    hide Inv, Legal, Replay, NoOvertaking, InTurn, InboxView.Classify;
    var s' := Next(w, every, s, step);
    var k := step.key;
    StepKeepsInv(w, every, s, step);
    InvParts(w, s);
    StatusMeaning(w, s.log, k);
    if s.memory.value.inbox.Classify(k) == DONE {
      assert Backlog(s, owed) == [] && Backlog(s', None) == [];
      InTurnEmpty(route, s.published);
    } else {
      OutboxMeaning(w, s.log, k);
      assert Backlog(s', None) == OutputsOf(s.log, k)[0..] == OutputsOf(s.log, k);
      assert forall e :: e in Backlog(s, owed) ==> e in OutputsOf(s.log, k);
      KeyOutputsInTurn(route, w, s.log, s.published, k);
    }
  }

  lemma InTurnEmpty(route: Route, published: seq<Entry>)
    ensures InTurn(route, published, [])
  {
  }

  lemma ProducerCommits<S, C>(route: Route, w: Worker<S, C>, every: int, s: World<S, C>, owed: Option<Key>)
    requires ProducerInv(route, w, s, owed) && Injective(w) && Enabled(w, s, Commit(0))
    ensures ProducerInv(route, w, Next(w, every, s, Commit(0)), owed)
  {
    hide Inv, NoOvertaking, InTurn, AllOutputs, DoneKeys, AppliedKeys, OutputsOf, Committed;
    var s' := Next(w, every, s, Commit(0));
    StepKeepsInv(w, every, s, Commit(0));
    ThreadsMeanNoRepublish(w, s);
    var r: Record<C> := InputDone(s.At(0).key, w.msgId(s.At(0).key));
    LogSnoc(s.log, r, s.At(0).key);
    assert s'.log[..|s.log|] == s.log;
    assert Earlier(s'.log) == Earlier(s.log);
    assert Backlog(s, owed) == [] && Backlog(s', owed) == [];
    InTurnEmpty(route, s.published);
  }

  lemma ProducerQuiet<S, C>(route: Route, w: Worker<S, C>, every: int, s: World<S, C>, owed: Option<Key>, step: Step<C>)
    requires ProducerInv(route, w, s, owed) && Injective(w) && Enabled(w, s, step) && SingleThreaded(step)
    requires step.TakeSnapshot? || step.Acknowledge? || step.Crash?
    ensures ProducerInv(route, w, Next(w, every, s, step), if step.Crash? then None else owed)
  {
    hide Inv, NoOvertaking, InTurn, AllOutputs, DoneKeys, AppliedKeys, OutputsOf, SnapshotMove, AllPublished, Earlier;
    StepKeepsInv(w, every, s, step);
    var s' := Next(w, every, s, step);
    assert s'.log == s.log && s'.published == s.published;
    if !step.Crash? {
      assert s'.republish == s.republish && !s'.At(0).Publishing? && !s.At(0).Publishing?;
      assert Backlog(s', owed) == Backlog(s, owed);
    }
  }

  lemma ProducerStarts<S, C>(route: Route, w: Worker<S, C>, every: int, s: World<S, C>, owed: Option<Key>,
                             step: Step<C>)
    requires ProducerInv(route, w, s, owed) && Injective(w) && Wellnamed(w.cfg) && Enabled(w, s, step) && step.Start?
    ensures ProducerInv(route, w, Next(w, every, s, step), owed)
  {
    var s' := Next(w, every, s, step);
    StepKeepsInv(w, every, s, step);
    DurableRecovers(w, s.disk, s.log);
    ListingInTurn(route, w, s.log, s.published, step.order);
    assert Backlog(s', owed) == s'.republish;
    forall e | e in AllOutputs(s.log)
      ensures e in s.published + s'.republish
    {
      var i := OutputHasInput(s.log, e);
      var k := s.log[i].key;
      RecordInKeys(w, s.log, i);
      if k in DoneKeys(s.log) {
        assert AllPublished(OutputsOf(s.log, k), s.published);
      } else {
        RepublishesExactly(w, s.log, step.order, e);
      }
    }
  }

  /** A record is the only one of its input. */
  lemma {:induction false} RecordInKeys<S, C>(w: Worker<S, C>, log: seq<Record<C>>, i: nat)
    requires Legal(w, log) && i < |log| && log[i].InputApplied?
    ensures log[i].key in AppliedKeys(log) && OutputsOf(log, log[i].key) == log[i].outputs
  {
    var before, r := log[..|log| - 1], log[|log| - 1];
    if i < |before| {
      RecordInKeys(w, before, i);
      if r.InputApplied? {
        AppliedUnseen(w, before, r.key);
      }
    }
  }

  lemma ProducerStep<S, C>(route: Route, w: Worker<S, C>, every: int, s: World<S, C>, owed: Option<Key>, step: Step<C>)
    requires ProducerInv(route, w, s, owed) && Injective(w) && Wellnamed(w.cfg)
    requires SingleThreaded(step) && Enabled(w, s, step)
    requires step.Handle? && owed.Some? ==> step.key == owed.value
    ensures ProducerInv(route, w, Next(w, every, s, step),
                        if step.Nack? then Some(s.At(0).key) else if step.Handle? || step.Crash? then None else owed)
  {
    hide ProducerInv, Next, InboxView.Classify;
    match step
    case Start(_, _) => ProducerStarts(route, w, every, s, owed, step);
    case Republish => ProducerPublishes(route, w, every, s, owed, step);
    case Publish(_) => ProducerPublishes(route, w, every, s, owed, step);
    case Handle(_, k, _, _) =>
      if s.memory.value.inbox.Classify(k) == NEW {
        ProducerHandlesNew(route, w, every, s, owed, step);
      } else {
        ProducerHandlesAgain(route, w, every, s, owed, step);
      }
    case Commit(_) => ProducerCommits(route, w, every, s, owed);
    case Nack(_) => ProducerNacks(route, w, every, s, owed);
    case _ => ProducerQuiet(route, w, every, s, owed, step);
  }

  lemma ProducerNacks<S, C>(route: Route, w: Worker<S, C>, every: int, s: World<S, C>, owed: Option<Key>)
    requires ProducerInv(route, w, s, owed) && Injective(w) && Wellnamed(w.cfg) && Enabled(w, s, Nack(0))
    ensures ProducerInv(route, w, Next(w, every, s, Nack(0)), Some(s.At(0).key))
  {
    var s' := Next(w, every, s, Nack(0));
    var pc := s.At(0);
    StepKeepsInv(w, every, s, Nack(0));
    assert ThreadInv(s, pc);
    ThreadsMeanNoRepublish(w, s);
    KeyOutputsInTurn(route, w, s.log, s.published, pc.key);
    hide Inv, NoOvertaking, InTurn;
    assert Backlog(s', Some(pc.key)) == OutputsOf(s.log, pc.key);
    assert Backlog(s, owed) == pc.outputs[pc.sent..];
  }

  // ----- The consumer side: exactly the next number is applied -----

  /** The route numbers the consumer ever applied, in order. */
  ghost function Taken<D>(route: Route, log: seq<Record<D>>): seq<nat> {
    if log == [] then []
    else
      var before, r := Taken(route, log[..|log| - 1]), log[|log| - 1];
      if r.InputApplied? && route.Owns(r.key) then before + [r.key.seqNo] else before
  }

  /** The route numbers the consumer ever finished, in order. */
  ghost function Ended<D>(route: Route, log: seq<Record<D>>): seq<nat> {
    if log == [] then []
    else
      var before, r := Ended(route, log[..|log| - 1]), log[|log| - 1];
      if r.InputDone? && route.Owns(r.key) then before + [r.key.seqNo] else before
  }

  lemma {:induction false} TakenKeys<D>(route: Route, log: seq<Record<D>>, v: nat)
    ensures v in Taken(route, log) <==> exists k :: k in AppliedKeys(log) && route.Owns(k) && k.seqNo == v
    ensures v in Ended(route, log) <==> exists k :: k in DoneKeys(log) && route.Owns(k) && k.seqNo == v
  {
    if log != [] {
      TakenKeys(route, log[..|log| - 1], v);
    }
  }

  /** The finished numbers of one kind are among those of the route. */
  lemma {:induction false} HistoryKeys<D>(route: Route, log: seq<Record<D>>, k: Key, v: nat)
    requires route.Owns(k)
    ensures v in DoneHistory(log, k.client, BucketOf(k)) ==> v in Ended(route, log)
    ensures k.seqNo in DoneHistory(log, k.client, BucketOf(k)) <==> k in DoneKeys(log)
  {
    if log != [] {
      HistoryKeys(route, log[..|log| - 1], k, v);
    }
  }

  lemma TakenSnoc<D>(route: Route, log: seq<Record<D>>, r: Record<D>)
    ensures Taken(route, log + [r]) ==
            if r.InputApplied? && route.Owns(r.key) then Taken(route, log) + [r.key.seqNo] else Taken(route, log)
    ensures Ended(route, log + [r]) ==
            if r.InputDone? && route.Owns(r.key) then Ended(route, log) + [r.key.seqNo] else Ended(route, log)
  {
    assert (log + [r])[..|log|] == log;
  }

  /** `taken` numbers were applied and `ended` of them finished, both in order; everything acknowledged
      is finished; the message at hand is the head of the queue. */
  ghost predicate Progress(route: Route, taken: seq<nat>, ended: seq<nat>, pc: Thread, acked: nat, stream: seq<nat>) {
    && taken == InOrder(|taken|) && ended == InOrder(|ended|)
    && |ended| <= |taken| <= |ended| + 1
    && (forall v :: 0 <= v < |taken| ==> v in stream)
    && acked <= |stream|
    && (forall i :: 0 <= i < acked ==> stream[i] < |ended|)
    && (!pc.Idle? && route.Owns(pc.key) ==>
          && acked < |stream| && pc.key.seqNo == stream[acked]
          && (pc.Publishing? ==> pc.key.seqNo == |ended| && |taken| == |ended| + 1)
          && (!pc.Publishing? ==> pc.key.seqNo < |ended|))
  }

  /** Whatever the consumer has applied for the route was read from a published packet. */
  ghost predicate FromPackets<D>(route: Route, log: seq<Record<D>>, published: seq<Entry>) {
    forall k :: k in AppliedKeys(log) && route.Owns(k) ==> Delivers(route, published, k.seqNo, k)
  }

  /** A number is read from its packet, and all packets of a number read the same. */
  ghost predicate OneKeyEach(route: Route, published: seq<Entry>) {
    && (forall n, k :: Delivers(route, published, n, k) ==> k.seqNo == n)
    && (forall n, k, k' :: Delivers(route, published, n, k) && Delivers(route, published, n, k') ==> k == k')
  }

  ghost predicate ConsumerInv<T, D>(route: Route, w: Worker<T, D>, s: World<T, D>, acked: nat,
                                    published: seq<Entry>) {
    && Inv(w, s) && OnlyThreadZero(s) && FromPackets(route, s.log, published)
    && Progress(route, Taken(route, s.log), Ended(route, s.log), s.At(0), acked, Stream(route, published))
  }

  /** Of the packets of one number, the consumer has applied or finished the one it reads, or none. */
  lemma KeyOfNumber<T, D>(route: Route, w: Worker<T, D>, log: seq<Record<D>>, published: seq<Entry>, v: nat, k: Key)
    requires Legal(w, log) && FromPackets(route, log, published) && OneKeyEach(route, published)
    requires Delivers(route, published, v, k) && route.Owns(k)
    ensures v in Taken(route, log) <==> k in AppliedKeys(log)
    ensures v in Ended(route, log) <==> k in DoneKeys(log)
  {
    hide Delivers, Legal, Taken, Ended, DoneKeys, AppliedKeys;
    TakenKeys(route, log, v);
    forall k' | k' in DoneKeys(log) ensures k' in AppliedKeys(log) {
      InboxMeaning(w, log, k');
    }
  }

  lemma {:induction false} HighestBelow(history: seq<nat>, v: nat)
    requires v > 0 && forall i :: 0 <= i < |history| ==> history[i] < v
    ensures Highest(history) < v
  {
    if history != [] {
      HighestBelow(history[..|history| - 1], v);
    }
  }

  /** The head of the queue is not past the next number. */
  lemma HeadBounds(route: Route, taken: seq<nat>, ended: seq<nat>, pc: Thread, acked: nat, stream: seq<nat>)
    requires Progress(route, taken, ended, pc, acked, stream) && NoOvertaking(stream) && acked < |stream|
    ensures stream[acked] <= |ended| <= |taken| <= |ended| + 1
  {
    var v, sofar := stream[acked], stream[..acked];
    assert forall u :: 0 <= u < v ==> u in sofar;
    assert |ended| !in sofar;
  }

  /** When the next number comes, its kind's tracker has not passed it. */
  lemma NextIsNotPassed<D>(route: Route, log: seq<Record<D>>, k: Key)
    requires route.Owns(k) && Ended(route, log) == InOrder(k.seqNo)
    ensures var history := DoneHistory(log, k.client, BucketOf(k));
            !(history != [] && (k.seqNo == 0 || k.seqNo in history || JumpedOver(history, k.seqNo)))
  {
    hide Ended, DoneHistory, JumpedOver;
    var history, v := DoneHistory(log, k.client, BucketOf(k)), k.seqNo;
    forall x | x in history ensures x < v {
      HistoryKeys(route, log, k, x);
      InOrderContains(v, x);
    }
    assert forall i :: 0 <= i < |history| ==> history[i] in history;
    assert history == [] || history[0] < v;
    if v > 0 {
      HighestBelow(history, v);
      NeverBeyondHighest(history, v);
    }
  }

  /** The status of the head of the queue: finished, applied, or exactly the next number. */
  lemma HeadStatus<T, D>(route: Route, w: Worker<T, D>, s: World<T, D>, acked: nat, published: seq<Entry>, k: Key)
    requires ConsumerInv(route, w, s, acked, published) && s.memory.Some? && OneKeyEach(route, published)
    requires var stream := Stream(route, published);
             NoOvertaking(stream) && acked < |stream| && Delivers(route, published, stream[acked], k)
    requires route.Owns(k)
    ensures var v, taken, ended := Stream(route, published)[acked], |Taken(route, s.log)|, |Ended(route, s.log)|;
            && k.seqNo == v <= ended <= taken <= ended + 1
            && s.memory.value.inbox.Classify(k) ==
               if v < ended then DONE else if taken == ended then NEW else APPLIED
  {
    InvParts(w, s);
    hide Inv, Legal, Replay, Delivers, FromPackets, NoOvertaking, DoneHistory, DoneKeys, AppliedKeys, Stream,
         Taken, Ended, InboxView.Classify, JumpedOver;
    var stream := Stream(route, published);
    var v, taken, ended := stream[acked], |Taken(route, s.log)|, |Ended(route, s.log)|;
    HeadBounds(route, Taken(route, s.log), Ended(route, s.log), s.At(0), acked, stream);
    KeyOfNumber(route, w, s.log, published, v, k);
    assert Taken(route, s.log) == InOrder(taken) && Ended(route, s.log) == InOrder(ended);
    InOrderContains(taken, v);
    InOrderContains(ended, v);
    StatusMeaning(w, s.log, k);
    HistoryKeys(route, s.log, k, v);
    if v == ended { NextIsNotPassed(route, s.log, k); }
  }

  lemma InOrderContains(n: nat, v: nat)
    ensures v in InOrder(n) <==> v < n
  {
    if v < n {
      assert InOrder(n)[v] == v;
    }
  }

  lemma InOrderSnoc(n: nat)
    ensures InOrder(n) + [n] == InOrder(n + 1)
  {
  }

  /** The progress of taking, or taking again, the head of the queue. */
  lemma ProgressAtHead(route: Route, taken: seq<nat>, ended: seq<nat>, acked: nat, stream: seq<nat>, k: Key,
                       outputs: seq<Entry>)
    requires Progress(route, taken, ended, Idle, acked, stream)
    requires acked < |stream| && route.Owns(k) && k.seqNo == stream[acked] <= |ended|
    ensures k.seqNo < |ended| ==> Progress(route, taken, ended, Finished(k, false), acked, stream)
    ensures k.seqNo == |ended| && |taken| == |ended| + 1 ==>
              Progress(route, taken, ended, Publishing(k, outputs, 0), acked, stream)
    ensures k.seqNo == |ended| == |taken| ==>
              Progress(route, taken + [k.seqNo], ended, Publishing(k, outputs, 0), acked, stream)
  {
    InOrderSnoc(|taken|);
  }

  /** One more record, of a key that is not of the route or read from a packet. */
  lemma FromPacketsSnoc<D>(route: Route, log: seq<Record<D>>, r: Record<D>, published: seq<Entry>)
    requires FromPackets(route, log, published)
    requires r.InputApplied? && route.Owns(r.key) ==> Delivers(route, published, r.key.seqNo, r.key)
    ensures FromPackets(route, log + [r], published)
  {
    hide Delivers;
    assert (log + [r])[..|log|] == log;
  }

  lemma ConsumerHandlesOwned<T, D>(route: Route, w: Worker<T, D>, every: int, s: World<T, D>, acked: nat,
                                   published: seq<Entry>, step: Step<D>)
    requires ConsumerInv(route, w, s, acked, published) && Injective(w) && OneKeyEach(route, published)
    requires Enabled(w, s, step) && step.Handle? && step.t == 0 && route.Owns(step.key)
    requires var stream := Stream(route, published);
             NoOvertaking(stream) && acked < |stream| && Delivers(route, published, stream[acked], step.key)
    ensures ConsumerInv(route, w, Next(w, every, s, step), acked, published)
  {
    hide Inv, Taken, Ended, NoOvertaking, Progress, InboxView.Classify, Stamped, ObserveAll, Added,
         InboxView.MarkApplied, FromPackets, Delivers, Stream;
    var stream := Stream(route, published);
    HeadStatus(route, w, s, acked, published, step.key);
    StepKeepsInv(w, every, s, step);
    var s' := StepHandle(w, s, 0, step.key, step.change, step.logical);
    assert s.At(0) == Idle;
    match s.memory.value.inbox.Classify(step.key)
    case NEW =>
      var (_, r) := HandledNew(w, s.memory.value, step.key, step.change, step.logical);
      TakenSnoc(route, s.log, r);
      FromPacketsSnoc(route, s.log, r, published);
      ProgressAtHead(route, Taken(route, s.log), Ended(route, s.log), acked, stream, step.key, r.outputs);
    case APPLIED =>
      ProgressAtHead(route, Taken(route, s.log), Ended(route, s.log), acked, stream, step.key, s'.At(0).outputs);
    case DONE =>
      ProgressAtHead(route, Taken(route, s.log), Ended(route, s.log), acked, stream, step.key, []);
  }

  lemma ConsumerHandlesOther<T, D>(route: Route, w: Worker<T, D>, every: int, s: World<T, D>, acked: nat,
                                   published: seq<Entry>, step: Step<D>)
    requires ConsumerInv(route, w, s, acked, published) && Injective(w)
    requires Enabled(w, s, step) && step.Handle? && step.t == 0 && !route.Owns(step.key)
    ensures ConsumerInv(route, w, Next(w, every, s, step), acked, published)
  {
    hide Inv, Taken, Ended, InboxView.Classify, Stamped, ObserveAll, Added, InboxView.MarkApplied, FromPackets, Stream;
    StepKeepsInv(w, every, s, step);
    if s.memory.value.inbox.Classify(step.key) == NEW {
      var (_, r) := HandledNew(w, s.memory.value, step.key, step.change, step.logical);
      TakenSnoc(route, s.log, r);
      FromPacketsSnoc(route, s.log, r, published);
    }
  }

  lemma ConsumerCommits<T, D>(route: Route, w: Worker<T, D>, every: int, s: World<T, D>, acked: nat,
                              published: seq<Entry>)
    requires ConsumerInv(route, w, s, acked, published) && Injective(w) && Enabled(w, s, Commit(0))
    ensures ConsumerInv(route, w, Next(w, every, s, Commit(0)), acked, published)
  {
    hide Inv, Taken, Ended, Committed, FromPackets, Stream;
    StepKeepsInv(w, every, s, Commit(0));
    var r: Record<D> := InputDone(s.At(0).key, w.msgId(s.At(0).key));
    TakenSnoc(route, s.log, r);
    FromPacketsSnoc(route, s.log, r, published);
    InOrderSnoc(|Ended(route, s.log)|);
  }

  /** The progress of a thread that publishes, finishes, gives up or disappears. */
  lemma ProgressOn(route: Route, taken: seq<nat>, ended: seq<nat>, pc: Thread, pc': Thread, acked: nat,
                   stream: seq<nat>)
    requires Progress(route, taken, ended, pc, acked, stream)
    ensures pc'.Idle? && !pc.Finished? ==> Progress(route, taken, ended, pc', acked, stream)
    ensures pc'.Idle? && pc.Finished? ==>
            Progress(route, taken, ended, pc', if route.Owns(pc.key) then acked + 1 else acked, stream)
    ensures !pc.Idle? && !pc'.Idle? && pc.key == pc'.key && pc.Publishing? == pc'.Publishing? ==>
            Progress(route, taken, ended, pc', acked, stream)
    ensures Progress(route, taken, ended, Idle, acked, stream)
  {
  }

  /** What such a step does to the thread and the log. */
  lemma QuietThread<T, D>(w: Worker<T, D>, every: int, s: World<T, D>, step: Step<D>)
    requires Inv(w, s) && OnlyThreadZero(s)
    requires Enabled(w, s, step) && SingleThreaded(step) && !step.Handle? && !step.Commit?
    ensures var s' := Next(w, every, s, step);
            && s'.log == s.log && OnlyThreadZero(s')
            && (step.TakeSnapshot? ==> !s.At(0).Idle? && !s'.At(0).Idle? && s'.At(0).key == s.At(0).key)
            && (step.TakeSnapshot? ==> !s.At(0).Publishing? && !s'.At(0).Publishing?)
            && (step.Publish? ==> s.At(0).Publishing? && s'.At(0).Publishing? && s'.At(0).key == s.At(0).key)
            && (step.Start? ==> s.At(0).Idle?)
            && (step.Start? || step.Republish? ==> s'.At(0) == s.At(0))
            && (step.Acknowledge? ==> s.At(0).Finished?)
            && (step.Nack? ==> !s.At(0).Finished?)
            && (step.Acknowledge? || step.Nack? || step.Crash? ==> s'.At(0).Idle?)
  {
    assert step.Start? ==> s.At(0).Idle?;
    hide Inv, SnapshotMove, Recovered, Listed, Enumerates;
  }

  lemma ConsumerQuiet<T, D>(route: Route, w: Worker<T, D>, every: int, s: World<T, D>, acked: nat,
                            published: seq<Entry>, step: Step<D>)
    requires ConsumerInv(route, w, s, acked, published) && Injective(w)
    requires Enabled(w, s, step) && SingleThreaded(step) && !step.Handle? && !step.Commit?
    ensures ConsumerInv(route, w, Next(w, every, s, step),
                        if step.Acknowledge? && route.Owns(s.At(0).key) then acked + 1 else acked, published)
  {
    StepKeepsInv(w, every, s, step);
    QuietThread(w, every, s, step);
    var s' := Next(w, every, s, step);
    hide Inv, Taken, Ended, Progress, Next, Enabled, FromPackets, Stream;
    ProgressOn(route, Taken(route, s.log), Ended(route, s.log), s.At(0), s'.At(0), acked, Stream(route, published));
  }

  ghost predicate PairInv<S, C, T, D>(route: Route, p: Worker<S, C>, c: Worker<T, D>, s: Pair<S, C, T, D>) {
    && ProducerInv(route, p, s.producer, s.owed)
    && ConsumerInv(route, c, s.consumer, s.acked, s.producer.published)
  }

  lemma MorePublished<T, D>(route: Route, c: Worker<T, D>, s: World<T, D>, acked: nat, published: seq<Entry>,
                            more: seq<Entry>)
    requires ConsumerInv(route, c, s, acked, published)
    ensures ConsumerInv(route, c, s, acked, published + more)
  {
    hide Inv, Taken, Ended, Numbers, AppliedKeys, Parse;
    NumbersPlus(published, more, route.Lane());
    var stream, longer := Stream(route, published), Stream(route, published + more);
    assert forall v :: v in stream ==> v in longer;
    forall k | k in AppliedKeys(s.log) && route.Owns(k)
      ensures Delivers(route, published + more, k.seqNo, k)
    {
      assert Delivers(route, published, k.seqNo, k);
    }
  }

  lemma PublishedGrows<S, C>(w: Worker<S, C>, every: int, s: World<S, C>, step: Step<C>) returns (more: seq<Entry>)
    requires Enabled(w, s, step)
    ensures Next(w, every, s, step).published == s.published + more
  {
    hide Recovered, Listed, SnapshotMove;
    more := if step.Republish? then [s.republish[0]]
            else if step.Publish? then [s.At(step.t).outputs[s.At(step.t).sent]] else [];
    assert s.published + [] == s.published;
  }

  /** The producer's numbering makes the packets of a number one packet, which carries that number. */
  lemma ProducerNumbersPackets<S, C>(route: Route, w: Worker<S, C>, s: World<S, C>)
    requires Inv(w, s) && Wellnamed(w.cfg)
    ensures OneKeyEach(route, s.published)
  {
    hide Parse, Legal, Replay, Consecutive, Wellnamed;
    NumberingMeaning(w, s.log);
    var all := AllOutputs(s.log);
    forall e | e in s.published ensures Carries(w.cfg, e) && e in all {
      OutputsCarry(w, s.log, e);
    }
    forall a, b, n | a in s.published && b in s.published &&
                     Parse(a.outputId) == Parse(b.outputId) == Numbered(route.Lane(), n)
      ensures a == b
    {
      NumberHasOneEntry(all, route.Lane(), n, a, b);
    }
  }

  lemma MoveKeepsInv<S, C, T, D>(route: Route, p: Worker<S, C>, c: Worker<T, D>, every: int, s: Pair<S, C, T, D>,
                                 move: Move<C, D>)
    requires PairInv(route, p, c, s) && CanMove(route, p, c, s, move)
    requires Injective(p) && Wellnamed(p.cfg) && Injective(c)
    ensures PairInv(route, p, c, Moved(route, p, c, every, s, move))
  {
    var published := s.producer.published;
    match move
    case Produce(step) =>
      hide ProducerInv, ConsumerInv, Next, Enabled;
      ProducerStep(route, p, every, s.producer, s.owed, step);
      var more := PublishedGrows(p, every, s.producer, step);
      MorePublished(route, c, s.consumer, s.acked, published, more);
    case Consume(step) =>
      hide Inv, InTurn, ConsumerInv, Next, Enabled, NoOvertaking, Delivers, Stream;
      ProducerNumbersPackets(route, p, s.producer);
      hide ProducerInv, OneKeyEach;
      if step.Handle? && route.Owns(step.key) {
        ConsumerHandlesOwned(route, c, every, s.consumer, s.acked, published, step);
      } else if step.Handle? {
        ConsumerHandlesOther(route, c, every, s.consumer, s.acked, published, step);
      } else if step.Commit? {
        ConsumerCommits(route, c, every, s.consumer, s.acked, published);
      } else {
        ConsumerQuiet(route, c, every, s.consumer, s.acked, published, step);
      }
  }

  lemma {:induction false} RunsKeepInv<S, C, T, D>(route: Route, p: Worker<S, C>, c: Worker<T, D>, every: int,
                                                   moves: seq<Move<C, D>>)
    requires Injective(p) && Wellnamed(p.cfg) && Injective(c)
    requires Runs(route, p, c, every, moves).Some?
    ensures PairInv(route, p, c, Runs(route, p, c, every, moves).value)
  {
    if moves == [] {
      RunKeepsInv(p, every, []);
      RunKeepsInv(c, every, []);
    } else {
      hide PairInv, CanMove, Moved;
      RunsKeepInv(route, p, c, every, moves[..|moves| - 1]);
      MoveKeepsInv(route, p, c, every, Runs(route, p, c, every, moves[..|moves| - 1]).value, moves[|moves| - 1]);
    }
  }

  /** Exactly once: at every moment of every run, with both ends crashing at will, the consumer has
      applied precisely the numbers 0, 1, ..., k-1 of the route, each once and in order, and every one
      of them is a durable output of the producer. */
  lemma ExactlyOnceLink<S, C, T, D>(route: Route, p: Worker<S, C>, c: Worker<T, D>, every: int, moves: seq<Move<C, D>>)
    requires Injective(p) && Wellnamed(p.cfg) && Injective(c)
    requires Runs(route, p, c, every, moves).Some?
    ensures var s := Runs(route, p, c, every, moves).value;
            var taken := Taken(route, s.consumer.log);
            && taken == InOrder(|taken|)
            && |taken| <= |Numbers(AllOutputs(s.producer.log), route.Lane())|
            && Recovered(c, s.consumer.disk) == Replay(c, Initial(c), s.consumer.log)
  {
    var s := Runs(route, p, c, every, moves).value;
    var taken := Taken(route, s.consumer.log);
    var all := AllOutputs(s.producer.log);
    RunsKeepInv(route, p, c, every, moves);
    DurableRecovers(c, s.consumer.disk, s.consumer.log);
    NumberingMeaning(p, s.producer.log);
    if |taken| > 0 {
      var v := |taken| - 1;
      var e := NumbersMember(s.producer.published, route.Lane(), v);
      MemberNumbers(all, route.Lane(), e, v);
      assert Numbers(all, route.Lane()) == InOrder(|Numbers(all, route.Lane())|);
    }
  }

  /** In a consecutive numbering a number of a lane has one entry. */
  lemma NumberHasOneEntry(all: seq<Entry>, lane: Lane, n: nat, a: Entry, b: Entry)
    requires Consecutive(all) && a in all && b in all
    requires Parse(a.outputId) == Parse(b.outputId) == Numbered(lane, n)
    ensures a == b
  {
    hide Parse, Numbers;
    var i :| 0 <= i < |all| && all[i] == a;
    var j :| 0 <= j < |all| && all[j] == b;
    NumbersPosition(all, i, lane);
    NumbersPosition(all, j, lane);
    assert Numbers(all, lane) == InOrder(|Numbers(all, lane)|);
    if i < j {
      assert all[..j][..i] == all[..i];
      NumbersPosition(all[..j], i, lane);
    } else if j < i {
      assert all[..i][..j] == all[..j];
      NumbersPosition(all[..i], j, lane);
    }
  }

  /** Whatever copy of a number is delivered, its bytes are the same. */
  lemma SameNumberSameBytes<S, C, T, D>(route: Route, p: Worker<S, C>, c: Worker<T, D>, every: int,
                                        moves: seq<Move<C, D>>, a: Entry, b: Entry, n: nat)
    requires Injective(p) && Wellnamed(p.cfg) && Injective(c)
    requires Runs(route, p, c, every, moves).Some?
    requires var published := Runs(route, p, c, every, moves).value.producer.published;
             a in published && b in published
    requires Parse(a.outputId) == Parse(b.outputId) == Numbered(route.Lane(), n)
    ensures a == b
  {
    hide Parse, Consecutive;
    var s := Runs(route, p, c, every, moves).value;
    RunsKeepInv(route, p, c, every, moves);
    NumberingMeaning(p, s.producer.log);
    NumberHasOneEntry(AllOutputs(s.producer.log), route.Lane(), n, a, b);
  }

  /** The packet carries what its id says: client, the edge's sender and the number, on the edge and shard of the
      lane. */
  ghost predicate Carries(cfg: Config, e: Entry) {
    var p := Parse(e.outputId);
    p.Numbered? && p.lane.AddressedLane? ==>
      && e.destination == p.lane.edge && p.lane.edge in cfg.edges && e.shard == Some(p.lane.shard) && e.body.Addressed?
      && e.body.client == p.lane.client && e.body.sender == cfg.edges[p.lane.edge].senderId && e.body.seqNo == p.seqNo
  }

  lemma StampedCarries(cfg: Config, v: SeqView, client: nat, input: string, outs: seq<Logical>, i: nat)
    requires Wellnamed(cfg) && i < |outs|
    ensures Carries(cfg, Stamped(cfg, v, client, input, outs)[i])
  {
    hide Parse, OutputId, Drawn;
    StampedNumber(cfg, v, client, input, outs, i);
    assert Stamped(cfg, v, client, input, outs)[i] == StampedEntry(cfg, v, client, input, outs, i);
  }

  lemma {:induction false} OutputsCarry<S, C>(w: Worker<S, C>, log: seq<Record<C>>, e: Entry)
    requires Legal(w, log) && Wellnamed(w.cfg) && e in AllOutputs(log)
    ensures Carries(w.cfg, e)
  {
    hide Carries, Stamped, Replay, Wellnamed;
    var before, r := log[..|log| - 1], log[|log| - 1];
    if e in AllOutputs(before) {
      OutputsCarry(w, before, e);
    } else {
      var v := Replay(w, Initial(w), before).seqr;
      var outs :| r.outputs == Stamped(w.cfg, v, r.key.client, r.msgId, outs);
      var i :| 0 <= i < |r.outputs| && r.outputs[i] == e;
      StampedCarries(w.cfg, v, r.key.client, r.msgId, outs, i);
    }
  }

  /** What the consumer applies for the route, data or abort, is read from a packet the producer published and logged:
      client, sender and number are those of the packet, and the kind is that of its message type. */
  lemma PacketHasTheKey<S, C, T, D>(route: Route, p: Worker<S, C>, c: Worker<T, D>, every: int,
                                    moves: seq<Move<C, D>>, k: Key) returns (e: Entry)
    requires Injective(p) && Wellnamed(p.cfg) && Injective(c) && Runs(route, p, c, every, moves).Some?
    requires k in AppliedKeys(Runs(route, p, c, every, moves).value.consumer.log) && route.Owns(k)
    ensures e in AllOutputs(Runs(route, p, c, every, moves).value.producer.log)
    ensures e.destination == route.edge && e.shard == Some(route.shard) && route.edge in p.cfg.edges
    ensures e.body.Addressed? && k == PacketKey(e.body) && Parse(e.outputId) == Numbered(route.Lane(), k.seqNo)
  {
    hide Parse, Legal, AppliedKeys;
    var s := Runs(route, p, c, every, moves).value;
    RunsKeepInv(route, p, c, every, moves);
    assert Delivers(route, s.producer.published, k.seqNo, k);
    e :| e in s.producer.published && Parse(e.outputId) == Numbered(route.Lane(), k.seqNo) && e.body.Addressed? &&
         k == PacketKey(e.body);
    OutputsCarry(p, s.producer.log, e);
  }
}
