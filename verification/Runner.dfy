/** Whole runs of a worker process: any number of consumer threads over one handler, publishing
    outside the lock, with a crash possible between any two steps. */
module Runner {
  import opened Prelude
  import opened Messages
  import opened Inboxes
  import opened Outboxes
  import opened Sequencing
  import opened Engine
  import opened StateDisk

  /** Where a consumer thread stands with the message it holds. */
  datatype Thread =
    | Idle
    | Publishing(key: Key, outputs: seq<Entry>, sent: nat)
    | Snapshotting(key: Key, next: SnapshotStep)   // still inside the locked commit
    | Finished(key: Key, committed: bool)          // only the acknowledgement is left

  /** `disk` survives a crash; `memory`, `republish` and `threads` do not. `log`, `published` and
      `acked` record the past and are read by no step. */
  datatype World<S, C> = World(
    disk: Disk<S, C>,
    memory: Option<Mem<S>>,
    republish: seq<Entry>,
    sinceSnapshot: nat,
    threads: map<nat, Thread>,
    log: seq<Record<C>>,
    published: seq<Entry>,
    acked: set<Key>)
  {
    function At(t: nat): Thread { Get(threads, t, Idle) }

    function Put(t: nat, pc: Thread): World<S, C> { this.(threads := threads[t := pc]) }

    /** The handler lock is free: it is held across the steps of a snapshot. */
    ghost predicate Unlocked() { forall t :: t in threads ==> !threads[t].Snapshotting? }

    ghost predicate Consuming() { memory.Some? && republish == [] }
  }

  datatype Step<C> =
    | Start(order: seq<(nat, string)>, applied: nat)
    | Republish
    | Handle(t: nat, key: Key, change: C, logical: seq<Logical>)
    | Publish(t: nat)
    | Commit(t: nat)
    | TakeSnapshot(t: nat)
    | Acknowledge(t: nat)
    | Nack(t: nat)
    | Crash

  function Boot<S, C>(): World<S, C> {
    World(Disk(None, None, None, None, None), None, [], 0, map[], [], [], {})
  }

  ghost predicate Enabled<S, C>(w: Worker<S, C>, s: World<S, C>, step: Step<C>) {
    match step
    case Start(order, _) => s.memory.None? && Enumerates(Recovered(w, s.disk).outbox, order)
    case Republish => s.memory.Some? && s.republish != []
    case Handle(t, _, _, _) => s.Consuming() && s.Unlocked() && s.At(t).Idle?
    case Publish(t) => s.memory.Some? && s.At(t).Publishing? && s.At(t).sent < |s.At(t).outputs|
    case Commit(t) => s.memory.Some? && s.Unlocked() && s.At(t).Publishing? && s.At(t).sent == |s.At(t).outputs|
    case TakeSnapshot(t) => s.memory.Some? && s.At(t).Snapshotting?
    case Acknowledge(t) => s.memory.Some? && s.At(t).Finished?
    case Nack(t) => s.memory.Some? && s.At(t).Publishing?
    case Crash => true
  }

  function StepHandle<S, C>(w: Worker<S, C>, s: World<S, C>, t: nat, k: Key, change: C,
                            logical: seq<Logical>): World<S, C>
    requires s.memory.Some?
  {
    var m := s.memory.value;
    match m.inbox.Classify(k)
    case DONE => s.Put(t, Finished(k, false))
    case APPLIED => s.Put(t, Publishing(k, EntriesFor(m.outbox, k.client, w.msgId(k)), 0))
    case NEW =>
      var (m', r) := HandledNew(w, m, k, change, logical);
      s.(disk := s.disk.Append(r), memory := Some(m'), log := s.log + [r], sinceSnapshot := s.sinceSnapshot + 1)
       .Put(t, Publishing(k, r.outputs, 0))
  }

  function StepCommit<S, C>(w: Worker<S, C>, every: int, s: World<S, C>, t: nat): World<S, C>
    requires s.memory.Some? && s.At(t).Publishing?
  {
    var k := s.At(t).key;
    var r := InputDone(k, w.msgId(k));
    s.(disk := s.disk.Append(r), memory := Some(Committed(w, s.memory.value, k)), log := s.log + [r])
     .Put(t, if s.sinceSnapshot >= every then Snapshotting(k, TmpWritten) else Finished(k, true))
  }

  function StepSnapshot<S, C>(s: World<S, C>, t: nat): World<S, C>
    requires s.memory.Some? && s.At(t).Snapshotting?
  {
    var Snapshotting(k, next) := s.At(t);
    var moved := s.(disk := SnapshotMove(s.disk, next, s.memory.value));
    match next
    case TmpWritten => moved.Put(t, Snapshotting(k, CurrentMoved))
    case CurrentMoved => moved.Put(t, Snapshotting(k, TmpMoved))
    case TmpMoved => moved.Put(t, Snapshotting(k, WalMoved))
    case WalMoved => moved.Put(t, Snapshotting(k, WalOpened))
    case WalOpened => moved.(sinceSnapshot := 0).Put(t, Finished(k, true))
  }

  ghost function Next<S, C>(w: Worker<S, C>, every: int, s: World<S, C>, step: Step<C>): World<S, C>
    requires Enabled(w, s, step)
  {
    match step
    case Start(order, applied) =>
      var m := Recovered(w, s.disk);
      s.(disk := s.disk.OpenWal(), memory := Some(m), republish := Listed(m.outbox, order), sinceSnapshot := applied)
    case Republish => s.(published := s.published + [s.republish[0]], republish := s.republish[1..])
    case Handle(t, k, change, logical) => StepHandle(w, s, t, k, change, logical)
    case Publish(t) =>
      var pc := s.At(t);
      s.(published := s.published + [pc.outputs[pc.sent]]).Put(t, pc.(sent := pc.sent + 1))
    case Commit(t) => StepCommit(w, every, s, t)
    case TakeSnapshot(t) => StepSnapshot(s, t)
    case Acknowledge(t) =>
      s.(acked := if s.At(t).committed then s.acked + {s.At(t).key} else s.acked).Put(t, Idle)
    case Nack(t) => s.Put(t, Idle)
    case Crash => s.(memory := None, republish := [], threads := map[], sinceSnapshot := 0)
  }

  /** The world after a list of steps, if each is enabled in turn. */
  ghost function Exec<S, C>(w: Worker<S, C>, every: int, steps: seq<Step<C>>): Option<World<S, C>> {
    if steps == [] then Some(Boot())
    else
      var before := Exec(w, every, steps[..|steps| - 1]);
      if before.Some? && Enabled(w, before.value, steps[|steps| - 1])
      then Some(Next(w, every, before.value, steps[|steps| - 1])) else None
  }

  // ----- The invariant -----

  ghost predicate AllPublished(entries: seq<Entry>, published: seq<Entry>) {
    forall e :: e in entries ==> e in published
  }

  ghost predicate ThreadInv<S, C>(s: World<S, C>, pc: Thread) {
    match pc
    case Idle => true
    case Publishing(k, outputs, sent) =>
      && k in AppliedKeys(s.log) && outputs == OutputsOf(s.log, k)
      && sent <= |outputs| && AllPublished(outputs[..sent], s.published)
    case Snapshotting(k, next) =>
      k in DoneKeys(s.log) && s.memory.Some? && SnapshotReady(s.disk, next, s.memory.value)
    case Finished(k, committed) => committed ==> k in DoneKeys(s.log)
  }

  ghost predicate Inv<S, C>(w: Worker<S, C>, s: World<S, C>) {
    && Legal(w, s.log)
    && Durable(w, s.disk, s.log)
    && (s.memory.Some? ==> s.memory.value == Replay(w, Initial(w), s.log))
    && (s.memory.None? ==> s.threads == map[] && s.republish == [])
    && AllPublished(s.published, AllOutputs(s.log))
    && AllPublished(s.republish, AllOutputs(s.log))
    && (s.republish != [] ==> s.threads == map[])
    && (forall t :: t in s.threads ==> ThreadInv(s, s.threads[t]))
    && (forall t, u :: t in s.threads && u in s.threads && s.threads[t].Snapshotting? && s.threads[u].Snapshotting? ==>
          t == u)
    && (forall k :: k in DoneKeys(s.log) ==> AllPublished(OutputsOf(s.log, k), s.published))
    && s.acked <= DoneKeys(s.log)
  }

  lemma LogSnoc<C>(log: seq<Record<C>>, r: Record<C>, k: Key)
    ensures AppliedKeys(log + [r]) == if r.InputApplied? then AppliedKeys(log) + {r.key} else AppliedKeys(log)
    ensures DoneKeys(log + [r]) == if r.InputDone? then DoneKeys(log) + {r.key} else DoneKeys(log)
    ensures OutputsOf(log + [r], k) == if r.InputApplied? && r.key == k then r.outputs else OutputsOf(log, k)
    ensures AllOutputs(log + [r]) == if r.InputApplied? then AllOutputs(log) + r.outputs else AllOutputs(log)
  {
    assert (log + [r])[..|log|] == log;
  }

  lemma {:induction false} OutputsAreAmongAll<C>(log: seq<Record<C>>, k: Key, e: Entry)
    requires e in OutputsOf(log, k)
    ensures e in AllOutputs(log)
  {
    var r := log[|log| - 1];
    if !(r.InputApplied? && r.key == k) {
      OutputsAreAmongAll(log[..|log| - 1], k, e);
    }
  }

  /** Appending a record, with memory following it, keeps every clause about the other threads. */
  lemma ThreadsKeep<S, C>(s: World<S, C>, s': World<S, C>, r: Record<C>, pc: Thread)
    requires s'.log == s.log + [r] && s'.published == s.published
    requires r.InputApplied? ==> r.key !in AppliedKeys(s.log)
    requires ThreadInv(s, pc) && !pc.Snapshotting?
    ensures ThreadInv(s', pc)
  {
    if !pc.Idle? {
      LogSnoc(s.log, r, pc.key);
    }
  }

  lemma AppliedUnseen<S, C>(w: Worker<S, C>, log: seq<Record<C>>, k: Key)
    requires Legal(w, log) && Replay(w, Initial(w), log).inbox.Classify(k) == NEW
    ensures k !in AppliedKeys(log) && k !in DoneKeys(log)
  {
    InboxMeaning(w, log, k);
    NewIsUnseen(Replay(w, Initial(w), log).inbox, log, k);
  }

  lemma HandleNewKeepsInv<S, C>(w: Worker<S, C>, s: World<S, C>, t: nat, k: Key, change: C, logical: seq<Logical>)
    requires Inv(w, s) && s.Consuming() && s.Unlocked() && s.At(t).Idle?
    requires s.memory.value.inbox.Classify(k) == NEW
    ensures Inv(w, StepHandle(w, s, t, k, change, logical))
  {
    hide Legal, Durable, Replay, AppliedKeys, DoneKeys, OutputsOf, AllOutputs, Stamped, ObserveAll, Added,
         InboxView.MarkApplied;
    var s' := StepHandle(w, s, t, k, change, logical);
    AppliedUnseen(w, s.log, k);
    AppliedStep(w, s.disk, s.log, k, change, logical);
    var (m', r) := HandledNew(w, s.memory.value, k, change, logical);
    LogSnoc(s.log, r, k);
    forall u | u in s'.threads
      ensures ThreadInv(s', s'.threads[u])
    {
      if u != t {
        ThreadsKeep(s, s', r, s.threads[u]);
      }
    }
    forall d | d in DoneKeys(s'.log)
      ensures AllPublished(OutputsOf(s'.log, d), s'.published)
    {
      LogSnoc(s.log, r, d);
    }
  }

  lemma HandleAgainKeepsInv<S, C>(w: Worker<S, C>, s: World<S, C>, t: nat, k: Key, change: C, logical: seq<Logical>)
    requires Inv(w, s) && Injective(w) && s.Consuming() && s.Unlocked() && s.At(t).Idle?
    requires s.memory.value.inbox.Classify(k) != NEW
    ensures Inv(w, StepHandle(w, s, t, k, change, logical))
  {
    var s' := StepHandle(w, s, t, k, change, logical);
    StatusMeaning(w, s.log, k);
    OutboxMeaning(w, s.log, k);
    hide Legal, Durable, Replay, AppliedKeys, DoneKeys, OutputsOf, AllOutputs;
    assert ThreadInv(s', s'.threads[t]);
    assert forall u :: u in s'.threads && u != t ==> ThreadInv(s, s.threads[u]);
  }

  lemma CommitKeepsInv<S, C>(w: Worker<S, C>, every: int, s: World<S, C>, t: nat)
    requires Inv(w, s) && Injective(w) && Enabled(w, s, Commit(t))
    ensures Inv(w, StepCommit(w, every, s, t))
  {
    hide Legal, Durable, Replay, AppliedKeys, DoneKeys, OutputsOf, AllOutputs, Removed, InboxView.MarkDone;
    var s' := StepCommit(w, every, s, t);
    var pc := s.At(t);
    var r: Record<C> := InputDone(pc.key, w.msgId(pc.key));
    assert ThreadInv(s, pc);
    DoneStep(w, s.disk, s.log, pc.key);
    LogSnoc(s.log, r, pc.key);
    forall u | u in s'.threads
      ensures ThreadInv(s', s'.threads[u])
    {
      if u != t {
        ThreadsKeep(s, s', r, s.threads[u]);
      }
    }
    forall d | d in DoneKeys(s'.log)
      ensures AllPublished(OutputsOf(s'.log, d), s'.published)
    {
      LogSnoc(s.log, r, d);
      assert pc.outputs[..pc.sent] == pc.outputs;
    }
  }

  lemma SnapshotKeepsInv<S, C>(w: Worker<S, C>, s: World<S, C>, t: nat)
    requires Inv(w, s) && Enabled(w, s, TakeSnapshot(t))
    ensures Inv(w, StepSnapshot(s, t))
  {
    hide Legal, Durable, Replay, AppliedKeys, DoneKeys, OutputsOf, AllOutputs, AllPublished, SnapshotMove;
    var s' := StepSnapshot(s, t);
    assert ThreadInv(s, s.At(t));
    SnapshotStepKeepsDurable(w, s.disk, s.log, s.At(t).next);
    forall u | u in s'.threads
      ensures ThreadInv(s', s'.threads[u])
    {
      SnapshotThread(w, s, t, u);
    }
    hide ThreadInv;
  }

  lemma SnapshotThread<S, C>(w: Worker<S, C>, s: World<S, C>, t: nat, u: nat)
    requires Inv(w, s) && Enabled(w, s, TakeSnapshot(t)) && u in s.threads
    ensures u in StepSnapshot(s, t).threads
    ensures ThreadInv(StepSnapshot(s, t), StepSnapshot(s, t).threads[u])
  {
    hide Legal, Durable, Replay, AppliedKeys, DoneKeys, OutputsOf, AllOutputs, AllPublished;
    assert ThreadInv(s, s.At(t));
    assert ThreadInv(s, s.threads[u]);
  }

  lemma PublishKeepsInv<S, C>(w: Worker<S, C>, every: int, s: World<S, C>, t: nat)
    requires Inv(w, s) && Enabled(w, s, Publish(t))
    ensures Inv(w, Next(w, every, s, Publish(t)))
  {
    var s' := Next(w, every, s, Publish(t));
    var pc := s.At(t);
    assert ThreadInv(s, pc);
    OutputsAreAmongAll(s.log, pc.key, pc.outputs[pc.sent]);
    hide Legal, Durable, Replay, AppliedKeys, DoneKeys, OutputsOf, AllOutputs;
    assert pc.outputs[..pc.sent + 1] == pc.outputs[..pc.sent] + [pc.outputs[pc.sent]];
    forall u | u in s'.threads
      ensures ThreadInv(s', s'.threads[u])
    {
      if u != t {
        assert ThreadInv(s, s.threads[u]);
      }
    }
  }

  /** What a restart republishes is exactly the outputs of the inputs applied and not finished. */
  lemma RepublishesExactly<S, C>(w: Worker<S, C>, log: seq<Record<C>>, order: seq<(nat, string)>, e: Entry)
    requires Legal(w, log) && Injective(w)
    requires Enumerates(Replay(w, Initial(w), log).outbox, order)
    ensures e in Listed(Replay(w, Initial(w), log).outbox, order) <==> IsPending(log, e)
  {
    var out := Replay(w, Initial(w), log).outbox;
    ListedContains(out, order, e);
    if e in Listed(out, order) {
      var i :| 0 <= i < |order| && e in EntriesFor(out, order[i].0, order[i].1);
      assert order[i] in Waiting(out);
      var k := WaitingHasInput(w, log, order[i].0, order[i].1);
      OutboxMeaning(w, log, k);
    }
    if k :| k in AppliedKeys(log) && k !in DoneKeys(log) && e in OutputsOf(log, k) {
      OutboxMeaning(w, log, k);
      assert (k.client, w.msgId(k)) in Waiting(out);
      var i :| 0 <= i < |order| && order[i] == (k.client, w.msgId(k));
    }
  }

  lemma StartKeepsInv<S, C>(w: Worker<S, C>, every: int, s: World<S, C>, order: seq<(nat, string)>, applied: nat)
    requires Inv(w, s) && Injective(w) && Enabled(w, s, Start(order, applied))
    ensures Inv(w, Next(w, every, s, Start(order, applied)))
  {
    var s' := Next(w, every, s, Start(order, applied));
    DurableRecovers(w, s.disk, s.log);
    var start: nat, taken: nat :| Covers(w, s.disk, s.log, start, taken);
    assert Covers(w, s'.disk, s.log, start, taken);
    forall e | e in s'.republish
      ensures e in AllOutputs(s.log)
    {
      RepublishesExactly(w, s.log, order, e);
      var k :| k in AppliedKeys(s.log) && k !in DoneKeys(s.log) && e in OutputsOf(s.log, k);
      OutputsAreAmongAll(s.log, k, e);
    }
  }

  /** A thread acknowledges or gives its message back. */
  lemma LeaveKeepsInv<S, C>(w: Worker<S, C>, every: int, s: World<S, C>, step: Step<C>, t: nat)
    requires Inv(w, s) && Enabled(w, s, step) && (step == Acknowledge(t) || step == Nack(t))
    ensures Inv(w, Next(w, every, s, step))
  {
    hide Legal, Durable, Replay, AppliedKeys, DoneKeys, OutputsOf, AllOutputs, SnapshotReady;
    var s' := Next(w, every, s, step);
    assert t in s.threads ==> ThreadInv(s, s.threads[t]);
    assert forall u :: u in s'.threads && u != t ==> ThreadInv(s, s.threads[u]);
    assert forall u :: u in s'.threads ==> ThreadInv(s', s'.threads[u]);
  }

  lemma NoThreadKeepsInv<S, C>(w: Worker<S, C>, every: int, s: World<S, C>, step: Step<C>)
    requires Inv(w, s) && Enabled(w, s, step) && (step == Republish || step == Crash)
    ensures Inv(w, Next(w, every, s, step))
  {
    hide Legal, Durable, Replay, AppliedKeys, DoneKeys, OutputsOf, AllOutputs, SnapshotReady;
  }

  lemma StepKeepsInv<S, C>(w: Worker<S, C>, every: int, s: World<S, C>, step: Step<C>)
    requires Inv(w, s) && Injective(w) && Enabled(w, s, step)
    ensures Inv(w, Next(w, every, s, step))
  {
    hide Inv, StepHandle, StepCommit, StepSnapshot, Recovered, Listed;
    match step
    case Start(order, applied) => StartKeepsInv(w, every, s, order, applied);
    case Handle(t, k, change, logical) =>
      if s.memory.value.inbox.Classify(k) == NEW {
        HandleNewKeepsInv(w, s, t, k, change, logical);
      } else {
        HandleAgainKeepsInv(w, s, t, k, change, logical);
      }
    case Publish(t) => PublishKeepsInv(w, every, s, t);
    case Commit(t) => CommitKeepsInv(w, every, s, t);
    case TakeSnapshot(t) => SnapshotKeepsInv(w, s, t);
    case Acknowledge(t) => LeaveKeepsInv(w, every, s, step, t);
    case Nack(t) => LeaveKeepsInv(w, every, s, step, t);
    case Republish => NoThreadKeepsInv(w, every, s, step);
    case Crash => NoThreadKeepsInv(w, every, s, step);
  }

  lemma {:induction false} RunKeepsInv<S, C>(w: Worker<S, C>, every: int, steps: seq<Step<C>>)
    requires Injective(w) && Exec(w, every, steps).Some?
    ensures Inv(w, Exec(w, every, steps).value)
  {
    if steps == [] {
      var s: World<S, C> := Boot();
      assert Covers(w, s.disk, s.log, 0, 0);
    } else {
      RunKeepsInv(w, every, steps[..|steps| - 1]);
      StepKeepsInv(w, every, Exec(w, every, steps[..|steps| - 1]).value, steps[|steps| - 1]);
    }
  }

  // ----- What every run guarantees -----

  /** At every moment of every run, a crash now followed by a restart rebuilds the fold of every record
      ever appended; and a live process is in that very state. */
  lemma RecoveryIsTheFoldOfTheLog<S, C>(w: Worker<S, C>, every: int, steps: seq<Step<C>>)
    requires Injective(w) && Exec(w, every, steps).Some?
    ensures var s := Exec(w, every, steps).value;
            && Recovered(w, s.disk) == Replay(w, Initial(w), s.log)
            && (s.memory.Some? ==> s.memory.value == Recovered(w, s.disk))
  {
    RunKeepsInv(w, every, steps);
    DurableRecovers(w, Exec(w, every, steps).value.disk, Exec(w, every, steps).value.log);
  }

  /** Over every run the change of an input enters the worker state at most once, and the recoverable
      worker state is the fold of those changes in the order they were logged. */
  lemma EffectsHappenOnce<S, C>(w: Worker<S, C>, every: int, steps: seq<Step<C>>)
    requires Injective(w) && Exec(w, every, steps).Some?
    ensures var s := Exec(w, every, steps).value;
            && Distinct(AppliedInOrder(s.log))
            && |AppliedInOrder(s.log)| == |Changes(s.log)|
            && Recovered(w, s.disk).worker == FoldChanges(w, Changes(s.log))
  {
    RunKeepsInv(w, every, steps);
    RecoveryIsTheFoldOfTheLog(w, every, steps);
    AppliedAtMostOnce(w, Exec(w, every, steps).value.log);
  }

  lemma {:induction false} OutputHasInput<C>(log: seq<Record<C>>, e: Entry) returns (i: nat)
    requires e in AllOutputs(log)
    ensures i < |log| && log[i].InputApplied? && e in log[i].outputs
  {
    var before, r := log[..|log| - 1], log[|log| - 1];
    if r.InputApplied? && e in r.outputs {
      i := |log| - 1;
    } else {
      i := OutputHasInput(before, e);
    }
  }

  /** Ordering promises of every run: an output is published only after its InputApplied record is
      durable, and an input committed and acknowledged is durably finished with all its outputs
      published at least once. */
  lemma WriteAheadOrdering<S, C>(w: Worker<S, C>, every: int, steps: seq<Step<C>>)
    requires Injective(w) && Exec(w, every, steps).Some?
    ensures var s := Exec(w, every, steps).value;
            && (forall e :: e in s.published ==>
                  exists i :: 0 <= i < |s.log| && s.log[i].InputApplied? && e in s.log[i].outputs)
            && (forall k :: k in s.acked ==>
                  && k in DoneKeys(s.log)
                  && Recovered(w, s.disk).inbox.Classify(k) == DONE
                  && AllPublished(OutputsOf(s.log, k), s.published))
  {
    RunKeepsInv(w, every, steps);
    RecoveryIsTheFoldOfTheLog(w, every, steps);
    var s := Exec(w, every, steps).value;
    forall e | e in s.published
      ensures exists i :: 0 <= i < |s.log| && s.log[i].InputApplied? && e in s.log[i].outputs
    {
      var i := OutputHasInput(s.log, e);
    }
    forall k | k in s.acked
      ensures Recovered(w, s.disk).inbox.Classify(k) == DONE
    {
      StatusMeaning(w, s.log, k);
      InboxMeaning(w, s.log, k);
    }
  }

  /** Over every run, the persisted numbers of each (client, edge, shard) are 0, 1, 2, ... and no output
      id is ever used twice. */
  lemma OutputNumbersOverRuns<S, C>(w: Worker<S, C>, every: int, steps: seq<Step<C>>)
    requires Injective(w) && Wellnamed(w.cfg) && Exec(w, every, steps).Some?
    ensures var all := AllOutputs(Exec(w, every, steps).value.log);
            && Consecutive(all)
            && (forall i, j :: 0 <= i < j < |all| ==> all[i].outputId != all[j].outputId)
  {
    RunKeepsInv(w, every, steps);
    var all := AllOutputs(Exec(w, every, steps).value.log);
    NumberingMeaning(w, Exec(w, every, steps).value.log);
    forall i, j | 0 <= i < j < |all|
      ensures all[i].outputId != all[j].outputId
    {
      DistinctIds(all, i, j);
    }
  }

  ghost predicate DueOnly<S, C>(every: int, s: World<S, C>) {
    forall t :: t in s.threads && s.threads[t].Snapshotting? ==> s.sinceSnapshot >= every
  }

  lemma StepDueOnly<S, C>(w: Worker<S, C>, every: int, s: World<S, C>, step: Step<C>)
    requires Inv(w, s) && DueOnly(every, s) && Enabled(w, s, step)
    ensures DueOnly(every, Next(w, every, s, step))
    ensures step.Commit? && s.sinceSnapshot >= every ==> Next(w, every, s, step).At(step.t).Snapshotting?
  {
    hide Legal, Durable, Replay, AppliedKeys, DoneKeys, OutputsOf, AllOutputs, AllPublished, SnapshotMove, Recovered,
         Listed, Stamped, ObserveAll, Added, InboxView.Classify, InboxView.MarkApplied, ThreadInv;
  }

  /** Over every run a snapshot is under way only when enough inputs were applied since the last one; and a commit
      starts one whenever they were. */
  lemma {:induction false} SnapshotsWhenDue<S, C>(w: Worker<S, C>, every: int, steps: seq<Step<C>>)
    requires Injective(w) && Exec(w, every, steps).Some?
    ensures DueOnly(every, Exec(w, every, steps).value)
  {
    if steps != [] {
      hide Enabled, Next, DueOnly;
      var init := steps[..|steps| - 1];
      SnapshotsWhenDue(w, every, init);
      RunKeepsInv(w, every, init);
      StepDueOnly(w, every, Exec(w, every, init).value, steps[|steps| - 1]);
    }
  }

  /** A restart at any moment republishes, byte for byte, exactly the outputs of the inputs whose effect
      is durable and whose commit is not. */
  lemma RestartRepublishes<S, C>(w: Worker<S, C>, every: int, steps: seq<Step<C>>, order: seq<(nat, string)>,
                                 applied: nat, e: Entry)
    requires Injective(w) && Exec(w, every, steps).Some?
    requires Enabled(w, Exec(w, every, steps).value, Start(order, applied))
    ensures var s := Exec(w, every, steps).value;
            e in Next(w, every, s, Start(order, applied)).republish <==> IsPending(s.log, e)
  {
    RunKeepsInv(w, every, steps);
    RecoveryIsTheFoldOfTheLog(w, every, steps);
    RepublishesExactly(w, Exec(w, every, steps).value.log, order, e);
  }
}
