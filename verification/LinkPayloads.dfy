/** What travels over a link: the consumer sees the payloads of the producer's business outputs, each once, in order. */
module LinkPayloads {
  import opened Prelude
  import opened Messages
  import opened Dedup
  import opened Inboxes
  import opened Outboxes
  import opened Sequencing
  import opened Engine
  import opened StateDisk
  import opened Runner
  import opened Link

  // ---------- the entries of a lane ----------

  function LaneEntries(entries: seq<Entry>, lane: Lane): seq<Entry> {
    if entries == [] then []
    else
      var before, e := LaneEntries(entries[..|entries| - 1], lane), entries[|entries| - 1];
      if Parse(e.outputId).Numbered? && Parse(e.outputId).lane == lane then before + [e] else before
  }

  lemma {:induction false} LanePosition(entries: seq<Entry>, i: nat, lane: Lane)
    requires i < |entries| && Parse(entries[i].outputId).Numbered? && Parse(entries[i].outputId).lane == lane
    ensures |LaneEntries(entries, lane)| == |Numbers(entries, lane)| > |Numbers(entries[..i], lane)|
    ensures LaneEntries(entries, lane)[|Numbers(entries[..i], lane)|] == entries[i]
  {
    hide Parse;
    var n := |entries| - 1;
    LaneSize(entries, lane);
    LaneSize(entries[..n], lane);
    if i < n {
      assert entries[..n][..i] == entries[..i];
      LanePosition(entries[..n], i, lane);
    }
  }

  lemma {:induction false} LaneSize(entries: seq<Entry>, lane: Lane)
    ensures |LaneEntries(entries, lane)| == |Numbers(entries, lane)|
  {
    hide Parse;
    if entries != [] {
      LaneSize(entries[..|entries| - 1], lane);
    }
  }

  lemma {:induction false} LanePlus(a: seq<Entry>, b: seq<Entry>, lane: Lane)
    ensures LaneEntries(a + b, lane) == LaneEntries(a, lane) + LaneEntries(b, lane)
  {
    hide Parse;
    if b == [] {
      assert a + b == a;
    } else {
      assert (a + b)[..|a + b| - 1] == a + b[..|b| - 1];
      LanePlus(a, b[..|b| - 1], lane);
    }
  }

  /** In a consecutive numbering entry `n` of a lane is the one numbered `n`. */
  lemma NumberedEntry(all: seq<Entry>, lane: Lane, e: Entry, n: nat)
    requires Consecutive(all) && e in all && Parse(e.outputId) == Numbered(lane, n)
    ensures n < |LaneEntries(all, lane)| && LaneEntries(all, lane)[n] == e
  {
    hide Parse, Numbers;
    var i :| 0 <= i < |all| && all[i] == e;
    NumbersPosition(all, i, lane);
    LanePosition(all, i, lane);
    assert Numbers(all, lane) == InOrder(|Numbers(all, lane)|);
  }

  // ---------- what the producer's business gave ----------

  /** The outputs of one input that belong to the route. */
  ghost function OnRoute(cfg: Config, route: Route, client: nat, outs: seq<Logical>): seq<Logical> {
    if outs == [] then []
    else
      var before, out := OnRoute(cfg, route, client, outs[..|outs| - 1]), outs[|outs| - 1];
      if client == route.client && out.destination == route.edge && route.edge in cfg.edges &&
         ShardOf(cfg, out) == route.shard
      then before + [out] else before
  }

  /** Each entry carries message type and payload of the output at its place. */
  ghost predicate Matches(entries: seq<Entry>, given: seq<Logical>) {
    && |entries| == |given|
    && forall i :: 0 <= i < |given| ==>
         && entries[i].body.Addressed?
         && entries[i].body.msgType == given[i].body.msgType && entries[i].body.payload == given[i].body.payload
  }

  lemma {:induction false} StampedMatches(cfg: Config, v: SeqView, route: Route, client: nat, input: string,
                                          outs: seq<Logical>, n: nat)
    requires Wellnamed(cfg) && n <= |outs|
    ensures Matches(LaneEntries(Stamped(cfg, v, client, input, outs)[..n], route.Lane()),
                    OnRoute(cfg, route, client, outs[..n]))
  {
    hide Parse, Stamped;
    var all := Stamped(cfg, v, client, input, outs);
    if n > 0 {
      StampedMatches(cfg, v, route, client, input, outs, n - 1);
      assert all[..n][..n - 1] == all[..n - 1] && outs[..n][..n - 1] == outs[..n - 1];
      StampedConveys(cfg, v, client, input, outs, n - 1);
    }
  }

  /** The business outputs an input brings: those of its first handling; a redelivery brings none. */
  ghost function Brought<S, C>(cfg: Config, route: Route, s: World<S, C>, step: Step<C>): seq<Logical> {
    if Fresh(s, step) then OnRoute(cfg, route, step.key.client, step.logical) else []
  }

  /** The outputs the producer's business function gave for the route, in order. */
  ghost function Given<S, C, T, D>(route: Route, p: Worker<S, C>, c: Worker<T, D>, every: int,
                                   moves: seq<Move<C, D>>): seq<Logical>
    requires Runs(route, p, c, every, moves).Some?
  {
    if moves == [] then []
    else
      var init, last := moves[..|moves| - 1], moves[|moves| - 1];
      Given(route, p, c, every, init) +
      if last.Produce? then Brought(p.cfg, route, Runs(route, p, c, every, init).value.producer, last.step) else []
  }

  /** The step is the first handling of its input. */
  ghost predicate Fresh<S, C>(s: World<S, C>, step: Step<C>) {
    step.Handle? && s.memory.Some? && s.memory.value.inbox.Classify(step.key) == NEW
  }

  lemma StepLogs<S, C>(w: Worker<S, C>, every: int, s: World<S, C>, step: Step<C>)
    requires Enabled(w, s, step)
    ensures AllOutputs(Next(w, every, s, step).log) ==
            AllOutputs(s.log) +
            if Fresh(s, step)
            then Stamped(w.cfg, s.memory.value.seqr, step.key.client, w.msgId(step.key), step.logical) else []
  {
    hide Stamped, ObserveAll, Added, InboxView.Classify, InboxView.MarkApplied, Recovered, Listed, SnapshotMove;
    assert AllOutputs(s.log) + [] == AllOutputs(s.log);
    if Fresh(s, step) {
      var (_, r) := HandledNew(w, s.memory.value, step.key, step.change, step.logical);
      LogSnoc(s.log, r, step.key);
    } else if step.Commit? {
      LogSnoc(s.log, InputDone(s.At(step.t).key, w.msgId(s.At(step.t).key)), s.At(step.t).key);
    }
  }

  lemma MatchesPlus(a: seq<Entry>, b: seq<Entry>, x: seq<Logical>, y: seq<Logical>)
    requires Matches(a, x) && Matches(b, y)
    ensures Matches(a + b, x + y)
  {
  }

  lemma StepBrings<S, C>(route: Route, w: Worker<S, C>, every: int, s: World<S, C>, step: Step<C>, given: seq<Logical>)
    requires Wellnamed(w.cfg) && Enabled(w, s, step)
    requires Matches(LaneEntries(AllOutputs(s.log), route.Lane()), given)
    ensures Matches(LaneEntries(AllOutputs(Next(w, every, s, step).log), route.Lane()),
                    given + Brought(w.cfg, route, s, step))
  {
    hide Stamped, InboxView.Classify, LaneEntries, Matches, Next, Enabled, AllOutputs, OnRoute;
    StepLogs(w, every, s, step);
    if Fresh(s, step) {
      var v, outs, id := s.memory.value.seqr, step.logical, w.msgId(step.key);
      var more := Stamped(w.cfg, v, step.key.client, id, outs);
      StampedMatches(w.cfg, v, route, step.key.client, id, outs, |outs|);
      assert more[..|outs|] == more && outs[..|outs|] == outs;
      LanePlus(AllOutputs(s.log), more, route.Lane());
      MatchesPlus(LaneEntries(AllOutputs(s.log), route.Lane()), LaneEntries(more, route.Lane()), given,
                  OnRoute(w.cfg, route, step.key.client, outs));
    } else {
      assert AllOutputs(s.log) + [] == AllOutputs(s.log) && given + [] == given;
    }
  }

  lemma {:induction false} LogHoldsGiven<S, C, T, D>(route: Route, p: Worker<S, C>, c: Worker<T, D>, every: int,
                                                     moves: seq<Move<C, D>>)
    requires Wellnamed(p.cfg) && Runs(route, p, c, every, moves).Some?
    ensures Matches(LaneEntries(AllOutputs(Runs(route, p, c, every, moves).value.producer.log), route.Lane()),
                    Given(route, p, c, every, moves))
  {
    if moves != [] {
      var init, last := moves[..|moves| - 1], moves[|moves| - 1];
      LogHoldsGiven(route, p, c, every, init);
      hide Next, Enabled, Matches, Brought;
      if last.Produce? {
        StepBrings(route, p, every, Runs(route, p, c, every, init).value.producer, last.step,
                   Given(route, p, c, every, init));
      } else {
        assert Given(route, p, c, every, init) + [] == Given(route, p, c, every, init);
      }
    }
  }

  /** The packet with number `n` of the route, whichever copy arrives, carries message type and payload of the n-th
      output the producer's business function gave for the route. */
  lemma PacketsCarryGiven<S, C, T, D>(route: Route, p: Worker<S, C>, c: Worker<T, D>, every: int,
                                      moves: seq<Move<C, D>>, e: Entry, n: nat)
    requires Injective(p) && Wellnamed(p.cfg) && Injective(c) && Runs(route, p, c, every, moves).Some?
    requires e in Runs(route, p, c, every, moves).value.producer.published
    requires Parse(e.outputId) == Numbered(route.Lane(), n)
    ensures var given := Given(route, p, c, every, moves);
            && n < |given| && e.body.Addressed?
            && e.body.msgType == given[n].body.msgType && e.body.payload == given[n].body.payload
  {
    hide Parse, Consecutive, Given, LaneEntries;
    var s := Runs(route, p, c, every, moves).value;
    RunsKeepInv(route, p, c, every, moves);
    NumberingMeaning(p, s.producer.log);
    LogHoldsGiven(route, p, c, every, moves);
    NumberedEntry(AllOutputs(s.producer.log), route.Lane(), e, n);
  }

  // ---------- what the consumer does with it ----------

  /** The changes the consumer ever applied for the route, in order. */
  ghost function Changes<D>(route: Route, log: seq<Record<D>>): seq<D> {
    if log == [] then []
    else
      var before, r := Changes(route, log[..|log| - 1]), log[|log| - 1];
      if r.InputApplied? && route.Owns(r.key) then before + [r.change] else before
  }

  /** The consumer computes its change from the packet at hand, and from whatever else it likes: `may` says which
      changes can follow from a message type and a payload. */
  ghost predicate Reads<S, C, T, D>(route: Route, p: Worker<S, C>, c: Worker<T, D>, every: int,
                                    moves: seq<Move<C, D>>, may: (nat, Bytes, D) -> bool)
    requires Runs(route, p, c, every, moves).Some?
  {
    moves == [] ||
    var init, last := moves[..|moves| - 1], moves[|moves| - 1];
    && Reads(route, p, c, every, init, may)
    && (last.Consume? && last.step_.Handle? && route.Owns(last.step_.key) ==>
          exists e :: && e in Runs(route, p, c, every, init).value.producer.published
                      && Parse(e.outputId) == Numbered(route.Lane(), last.step_.key.seqNo) && e.body.Addressed?
                      && may(e.body.msgType, e.body.payload, last.step_.change))
  }

  lemma StepTakes<T, D>(route: Route, w: Worker<T, D>, every: int, s: World<T, D>, step: Step<D>)
    requires Enabled(w, s, step)
    ensures var owned, log := Fresh(s, step) && route.Owns(step.key), Next(w, every, s, step).log;
            && Changes(route, log) == Changes(route, s.log) + (if owned then [step.change] else [])
            && Taken(route, log) == Taken(route, s.log) + (if owned then [step.key.seqNo] else [])
  {
    hide Stamped, ObserveAll, Added, InboxView.Classify, InboxView.MarkApplied, Recovered, Listed, SnapshotMove;
    assert Changes(route, s.log) + [] == Changes(route, s.log) && Taken(route, s.log) + [] == Taken(route, s.log);
    if Fresh(s, step) {
      var (_, r) := HandledNew(w, s.memory.value, step.key, step.change, step.logical);
      assert (s.log + [r])[..|s.log|] == s.log;
    } else if step.Commit? {
      var r := InputDone(s.At(step.t).key, w.msgId(s.At(step.t).key));
      assert (s.log + [r])[..|s.log|] == s.log;
    }
  }

  lemma {:induction false} OneChangeEach<D>(route: Route, log: seq<Record<D>>)
    ensures |Changes(route, log)| == |Taken(route, log)|
  {
    if log != [] {
      OneChangeEach(route, log[..|log| - 1]);
    }
  }

  /** The n-th change follows from the n-th output. */
  ghost predicate Follow<D>(may: (nat, Bytes, D) -> bool, changes: seq<D>, given: seq<Logical>) {
    && |changes| <= |given|
    && forall n :: 0 <= n < |changes| ==> may(given[n].body.msgType, given[n].body.payload, changes[n])
  }

  lemma FollowMore<D>(may: (nat, Bytes, D) -> bool, changes: seq<D>, given: seq<Logical>, more: seq<Logical>)
    requires Follow(may, changes, given)
    ensures Follow(may, changes, given + more)
  {
  }

  lemma LastMove<S, C, T, D>(route: Route, p: Worker<S, C>, c: Worker<T, D>, every: int, moves: seq<Move<C, D>>)
    requires Runs(route, p, c, every, moves).Some? && moves != []
    ensures var before, last := Runs(route, p, c, every, moves[..|moves| - 1]), moves[|moves| - 1];
            && before.Some? && CanMove(route, p, c, before.value, last)
            && (last.Produce? ==>
                  && Runs(route, p, c, every, moves).value.consumer == before.value.consumer
                  && Given(route, p, c, every, moves) ==
                     Given(route, p, c, every, moves[..|moves| - 1]) +
                     Brought(p.cfg, route, before.value.producer, last.step))
            && (last.Consume? ==>
                  && Enabled(c, before.value.consumer, last.step_)
                  && Runs(route, p, c, every, moves).value.consumer ==
                     Next(c, every, before.value.consumer, last.step_)
                  && Given(route, p, c, every, moves) == Given(route, p, c, every, moves[..|moves| - 1]) + [])
  {
    hide Next, Enabled, Brought;
  }

  /** Over any run with both ends crashing at will, the n-th change the consumer applied for the route follows from the
      message type and the payload of the n-th output the producer's business function gave for it. */
  lemma {:induction false} ChangesFollowGiven<S, C, T, D>(route: Route, p: Worker<S, C>, c: Worker<T, D>, every: int,
                                                          moves: seq<Move<C, D>>, may: (nat, Bytes, D) -> bool)
    requires Injective(p) && Wellnamed(p.cfg) && Injective(c) && Runs(route, p, c, every, moves).Some?
    requires Reads(route, p, c, every, moves, may)
    ensures Follow(may, Changes(route, Runs(route, p, c, every, moves).value.consumer.log),
                   Given(route, p, c, every, moves))
  {
    hide Next, Enabled, Changes, Brought, Parse, Follow, CanMove;
    if moves == [] {
      NothingFollows(route, p, c, every, may);
    } else {
      LastMove(route, p, c, every, moves);
      hide Runs, Given, Fresh;
      var init, last := moves[..|moves| - 1], moves[|moves| - 1];
      ChangesFollowGiven(route, p, c, every, init, may);
      var s, given := Runs(route, p, c, every, init).value, Given(route, p, c, every, init);
      var changes := Changes(route, s.consumer.log);
      assert given + [] == given && changes + [] == changes;
      if last.Produce? {
        FollowMore(may, changes, given, Brought(p.cfg, route, s.producer, last.step));
      } else {
        StepTakes(route, c, every, s.consumer, last.step_);
        if Fresh(s.consumer, last.step_) && route.Owns(last.step_.key) {
          TakeFollows(route, p, c, every, moves, may);
        }
      }
    }
  }

  lemma NothingFollows<S, C, T, D>(route: Route, p: Worker<S, C>, c: Worker<T, D>, every: int,
                                   may: (nat, Bytes, D) -> bool)
    ensures Follow(may, Changes(route, Runs(route, p, c, every, []).value.consumer.log), Given(route, p, c, every, []))
  {
  }

  lemma LastRead<S, C, T, D>(route: Route, p: Worker<S, C>, c: Worker<T, D>, every: int, moves: seq<Move<C, D>>,
                             may: (nat, Bytes, D) -> bool) returns (e: Entry)
    requires Runs(route, p, c, every, moves).Some? && moves != [] && Reads(route, p, c, every, moves, may)
    requires var last := moves[|moves| - 1]; last.Consume? && last.step_.Handle? && route.Owns(last.step_.key)
    ensures Runs(route, p, c, every, moves[..|moves| - 1]).Some?
    ensures var step := moves[|moves| - 1].step_;
            && e in Runs(route, p, c, every, moves[..|moves| - 1]).value.producer.published
            && Parse(e.outputId) == Numbered(route.Lane(), step.key.seqNo)
            && e.body.Addressed? && may(e.body.msgType, e.body.payload, step.change)
  {
    hide Parse, CanMove, Moved;
    var init, step := moves[..|moves| - 1], moves[|moves| - 1].step_;
    e :| && e in Runs(route, p, c, every, init).value.producer.published
         && Parse(e.outputId) == Numbered(route.Lane(), step.key.seqNo)
         && e.body.Addressed? && may(e.body.msgType, e.body.payload, step.change);
  }

  lemma TakeFollows<S, C, T, D>(route: Route, p: Worker<S, C>, c: Worker<T, D>, every: int, moves: seq<Move<C, D>>,
                                may: (nat, Bytes, D) -> bool)
    requires Injective(p) && Wellnamed(p.cfg) && Injective(c) && Runs(route, p, c, every, moves).Some? && moves != []
    requires Reads(route, p, c, every, moves, may)
    requires var init, last := moves[..|moves| - 1], moves[|moves| - 1];
             && Runs(route, p, c, every, init).Some? && last.Consume?
             && var s := Runs(route, p, c, every, init).value;
                && Enabled(c, s.consumer, last.step_) && Fresh(s.consumer, last.step_) && route.Owns(last.step_.key)
                && Follow(may, Changes(route, s.consumer.log), Given(route, p, c, every, init))
    ensures var init, step := moves[..|moves| - 1], moves[|moves| - 1].step_;
            Follow(may, Changes(route, Runs(route, p, c, every, init).value.consumer.log) + [step.change],
                   Given(route, p, c, every, init))
  {
    hide Next, Enabled, Changes, Taken, Parse, Runs, Given, CanMove, Moved, InboxView.Classify, Reads;
    var init, step := moves[..|moves| - 1], moves[|moves| - 1].step_;
    var s := Runs(route, p, c, every, init).value;
    LastMove(route, p, c, every, moves);
    StepTakes(route, c, every, s.consumer, step);
    OneChangeEach(route, s.consumer.log);
    NextTaken(route, p, c, every, moves, step.key.seqNo);
    var e := LastRead(route, p, c, every, moves, may);
    PacketsCarryGiven(route, p, c, every, init, e, step.key.seqNo);
  }

  /** The number taken is the next one. */
  lemma NextTaken<S, C, T, D>(route: Route, p: Worker<S, C>, c: Worker<T, D>, every: int, moves: seq<Move<C, D>>,
                              n: nat)
    requires Injective(p) && Wellnamed(p.cfg) && Injective(c) && Runs(route, p, c, every, moves).Some? && moves != []
    requires Runs(route, p, c, every, moves[..|moves| - 1]).Some?
    requires Taken(route, Runs(route, p, c, every, moves).value.consumer.log) ==
             Taken(route, Runs(route, p, c, every, moves[..|moves| - 1]).value.consumer.log) + [n]
    ensures n == |Taken(route, Runs(route, p, c, every, moves[..|moves| - 1]).value.consumer.log)|
  {
    hide Runs, Taken;
    ExactlyOnceLink(route, p, c, every, moves);
    var taken := Taken(route, Runs(route, p, c, every, moves).value.consumer.log);
    assert taken[|taken| - 1] == n && taken[|taken| - 1] == InOrder(|taken|)[|taken| - 1];
  }
}
