/** The durable-state protocol on values: log records, the volatile state they rebuild, and what
    replaying them means. */
module Engine {
  import opened Prelude
  import opened Messages
  import opened Dedup
  import opened Inboxes
  import opened Outboxes
  import opened Sequencing

  /** A worker: its output edges, its business state machine and the ids of its inputs. */
  datatype Worker<!S, !C> = Worker(cfg: Config, init: S, apply: (S, C) -> S, msgId: Key -> string)

  datatype Record<C> =
    | InputApplied(key: Key, msgId: string, change: C, outputs: seq<Entry>)
    | InputDone(key: Key, msgId: string)

  /** Everything a worker keeps in memory; a snapshot is a copy of it. */
  datatype Mem<S> = Mem(worker: S, inbox: InboxView, outbox: OutboxView, seqr: SeqView)

  function Initial<S, C>(w: Worker<S, C>): Mem<S> {
    Mem(w.init, EMPTY_INBOX, map[], NO_COUNTERS)
  }

  /** Replays one record, skipping what the memory already reflects. */
  function ApplyRecord<S, C>(w: Worker<S, C>, m: Mem<S>, r: Record<C>): Mem<S> {
    match r
    case InputApplied(k, id, change, outputs) =>
      if m.inbox.Classify(k) == NEW
      then Mem(w.apply(m.worker, change), m.inbox.MarkApplied(k),
               Added(m.outbox, k.client, id, outputs), ObserveAll(m.seqr, outputs))
      else m
    case InputDone(k, id) =>
      if m.inbox.Classify(k) != DONE
      then m.(inbox := m.inbox.MarkDone(k), outbox := Removed(m.outbox, k.client, id))
      else m
  }

  function Replay<S, C>(w: Worker<S, C>, m: Mem<S>, rs: seq<Record<C>>): Mem<S> {
    if rs == [] then m else ApplyRecord(w, Replay(w, m, rs[..|rs| - 1]), rs[|rs| - 1])
  }

  lemma ReplaySnoc<S, C>(w: Worker<S, C>, m: Mem<S>, rs: seq<Record<C>>, r: Record<C>)
    ensures Replay(w, m, rs + [r]) == ApplyRecord(w, Replay(w, m, rs), r)
  {
    assert (rs + [r])[..|rs|] == rs;
  }

  lemma {:induction false} ReplayPlus<S, C>(w: Worker<S, C>, m: Mem<S>, a: seq<Record<C>>, b: seq<Record<C>>)
    ensures Replay(w, m, a + b) == Replay(w, Replay(w, m, a), b)
  {
    if b == [] {
      assert a + b == a;
    } else {
      assert (a + b)[..|a + b| - 1] == a + b[..|b| - 1];
      ReplayPlus(w, m, a, b[..|b| - 1]);
    }
  }

  /** Shape every reachable memory has: sound trackers, no empty dictionaries left behind. */
  ghost predicate Tidy<S>(m: Mem<S>) {
    && m.inbox.Sound()
    && (forall c :: c in m.inbox.applied ==> m.inbox.applied[c] != {})
    && (forall c :: c in m.outbox ==> m.outbox[c] != map[])
  }

  lemma TidyStep<S, C>(w: Worker<S, C>, m: Mem<S>, r: Record<C>)
    requires Tidy(m)
    ensures Tidy(ApplyRecord(w, m, r))
  {
    if r.InputDone? {
      MarkDoneSound(m.inbox, r.key);
      var out := Removed(m.outbox, r.key.client, r.msgId);
      assert forall c :: c in out ==> out[c] != map[];
    } else {
      var added := Added(m.outbox, r.key.client, r.msgId, r.outputs);
      assert r.msgId in added[r.key.client];
    }
  }

  lemma {:induction false} TidyReplay<S, C>(w: Worker<S, C>, m: Mem<S>, rs: seq<Record<C>>)
    requires Tidy(m)
    ensures Tidy(Replay(w, m, rs))
  {
    if rs != [] {
      TidyReplay(w, m, rs[..|rs| - 1]);
      TidyStep(w, Replay(w, m, rs[..|rs| - 1]), rs[|rs| - 1]);
    }
  }

  /** The memory already reflects the record, so replaying it changes nothing. */
  predicate Settled<S, C>(m: Mem<S>, r: Record<C>) {
    match r
    case InputApplied(k, _, _, _) => m.inbox.Classify(k) != NEW
    case InputDone(k, _) => m.inbox.Classify(k) == DONE
  }

  /** NEW, APPLIED, DONE never goes backwards. */
  lemma StatusNeverGoesBack<S, C>(w: Worker<S, C>, m: Mem<S>, r: Record<C>, k: Key)
    requires Tidy(m)
    ensures Rank(ApplyRecord(w, m, r).inbox.Classify(k)) >= Rank(m.inbox.Classify(k))
  {
    match r
    case InputApplied(other, _, _, _) =>
      if m.inbox.Classify(other) == NEW {
        MarkAppliedStatus(m.inbox, other, k);
      }
    case InputDone(other, _) =>
      MarkDoneStatus(m.inbox, other, k);
  }

  lemma SettledStep<S, C>(w: Worker<S, C>, m: Mem<S>, r: Record<C>, old_: Record<C>)
    requires Tidy(m)
    ensures Settled(ApplyRecord(w, m, r), r)
    ensures Settled(m, old_) ==> Settled(ApplyRecord(w, m, r), old_)
  {
    match r
    case InputApplied(k, _, _, _) =>
      if m.inbox.Classify(k) == NEW {
        MarkAppliedStatus(m.inbox, k, k);
      }
    case InputDone(k, _) =>
      MarkDoneStatus(m.inbox, k, k);
    StatusNeverGoesBack(w, m, r, old_.key);
  }

  /** After a replay every replayed record is settled. */
  lemma {:induction false} ReplayedIsSettled<S, C>(w: Worker<S, C>, m: Mem<S>, rs: seq<Record<C>>, i: nat)
    requires Tidy(m) && i < |rs|
    ensures Settled(Replay(w, m, rs), rs[i])
  {
    var init := rs[..|rs| - 1];
    TidyReplay(w, m, init);
    SettledStep(w, Replay(w, m, init), rs[|rs| - 1], rs[i]);
    if i < |init| {
      ReplayedIsSettled(w, m, init, i);
    }
  }

  /** Replaying settled records changes nothing. */
  lemma {:induction false} ReplaySettled<S, C>(w: Worker<S, C>, m: Mem<S>, rs: seq<Record<C>>)
    requires forall i :: 0 <= i < |rs| ==> Settled(m, rs[i])
    ensures Replay(w, m, rs) == m
  {
    if rs != [] {
      ReplaySettled(w, m, rs[..|rs| - 1]);
      assert Settled(m, rs[|rs| - 1]);
    }
  }

  /** Replaying any suffix of the log over a snapshot of any longer prefix rebuilds the fold of the
      whole log: records the snapshot already holds are skipped, the others are applied in order. */
  lemma SuffixOverSnapshot<S, C>(w: Worker<S, C>, log: seq<Record<C>>, start: nat, taken: nat)
    requires start <= taken <= |log|
    ensures Replay(w, Replay(w, Initial(w), log[..taken]), log[start..]) == Replay(w, Initial(w), log)
  {
    hide Replay, Settled;
    var snapshot := Replay(w, Initial(w), log[..taken]);
    assert log[start..] == log[start..taken] + log[taken..];
    ReplayPlus(w, snapshot, log[start..taken], log[taken..]);
    forall i | 0 <= i < taken - start
      ensures Settled(snapshot, log[start..taken][i])
    {
      ReplayedIsSettled(w, Initial(w), log[..taken], start + i);
    }
    ReplaySettled(w, snapshot, log[start..taken]);
    ReplayPlus(w, Initial(w), log[..taken], log[taken..]);
    assert log == log[..taken] + log[taken..];
  }

  // ----- The live operations -----

  /** Memory after handling a NEW input, in the handler's order of updates. */
  function HandledNew<S, C>(w: Worker<S, C>, m: Mem<S>, k: Key, change: C, logical: seq<Logical>): (Mem<S>, Record<C>) {
    var outputs := Stamped(w.cfg, m.seqr, k.client, w.msgId(k), logical);
    (Mem(w.apply(m.worker, change), m.inbox.MarkApplied(k),
         Added(m.outbox, k.client, w.msgId(k), outputs), ObserveAll(m.seqr, outputs)),
     InputApplied(k, w.msgId(k), change, outputs))
  }

  /** Memory after committing an input. */
  function Committed<S, C>(w: Worker<S, C>, m: Mem<S>, k: Key): Mem<S> {
    m.(inbox := m.inbox.MarkDone(k), outbox := Removed(m.outbox, k.client, w.msgId(k)))
  }

  /** Committing live is replaying the InputDone record, also when a second thread commits the same
      input again. */
  lemma CommitIsReplay<S, C>(w: Worker<S, C>, m: Mem<S>, k: Key)
    requires Tidy(m)
    requires m.inbox.Classify(k) == DONE ==> !Holds(m.outbox, k.client, w.msgId(k))
    ensures Committed(w, m, k) == ApplyRecord(w, m, InputDone(k, w.msgId(k)))
  {
    if m.inbox.Classify(k) == DONE {
      MarkDoneAgain(m.inbox, k);
      RemovedAbsent(m.outbox, k.client, w.msgId(k));
    }
  }

  // ----- What the log means -----

  ghost function AppliedKeys<C>(log: seq<Record<C>>): set<Key> {
    if log == [] then {}
    else
      var before, r := AppliedKeys(log[..|log| - 1]), log[|log| - 1];
      if r.InputApplied? then before + {r.key} else before
  }

  ghost function DoneKeys<C>(log: seq<Record<C>>): set<Key> {
    if log == [] then {}
    else
      var before, r := DoneKeys(log[..|log| - 1]), log[|log| - 1];
      if r.InputDone? then before + {r.key} else before
  }

  /** The business changes in the log, in order. */
  ghost function Changes<C>(log: seq<Record<C>>): seq<C> {
    if log == [] then []
    else
      var before, r := Changes(log[..|log| - 1]), log[|log| - 1];
      if r.InputApplied? then before + [r.change] else before
  }

  /** The keys of the applied inputs, in order. */
  ghost function AppliedInOrder<C>(log: seq<Record<C>>): seq<Key> {
    if log == [] then []
    else
      var before, r := AppliedInOrder(log[..|log| - 1]), log[|log| - 1];
      if r.InputApplied? then before + [r.key] else before
  }

  /** All persisted outputs, in order. */
  ghost function AllOutputs<C>(log: seq<Record<C>>): seq<Entry> {
    if log == [] then []
    else
      var before, r := AllOutputs(log[..|log| - 1]), log[|log| - 1];
      if r.InputApplied? then before + r.outputs else before
  }

  /** The outputs recorded for one input. */
  ghost function OutputsOf<C>(log: seq<Record<C>>, k: Key): seq<Entry> {
    if log == [] then []
    else if log[|log| - 1].InputApplied? && log[|log| - 1].key == k then log[|log| - 1].outputs
    else OutputsOf(log[..|log| - 1], k)
  }

  /** An output of an input that is applied and not done. */
  ghost predicate IsPending<C>(log: seq<Record<C>>, e: Entry) {
    exists k :: k in AppliedKeys(log) && k !in DoneKeys(log) && e in OutputsOf(log, k)
  }

  /** The finished sequence numbers of one (client, kind, sender), in order of finishing. */
  ghost function DoneHistory<C>(log: seq<Record<C>>, client: nat, b: Bucket): seq<nat> {
    if log == [] then []
    else
      var r := log[|log| - 1];
      var before := DoneHistory(log[..|log| - 1], client, b);
      if r.InputDone? && r.key.client == client && BucketOf(r.key) == b then before + [r.key.seqNo] else before
  }

  function FoldChanges<S, C>(w: Worker<S, C>, changes: seq<C>): S {
    if changes == [] then w.init
    else w.apply(FoldChanges(w, changes[..|changes| - 1]), changes[|changes| - 1])
  }

  /** Input ids identify inputs within a client. */
  ghost predicate Injective<S, C>(w: Worker<S, C>) {
    forall a: Key, b: Key :: a.client == b.client && w.msgId(a) == w.msgId(b) ==> a == b
  }

  ghost predicate StampedBy(cfg: Config, v: SeqView, client: nat, id: string, outputs: seq<Entry>) {
    exists logical :: outputs == Stamped(cfg, v, client, id, logical)
  }

  /** The log a handler can write: InputApplied only for NEW inputs, with freshly stamped outputs;
      InputDone only for applied inputs. */
  ghost predicate Legal<S, C>(w: Worker<S, C>, log: seq<Record<C>>) {
    log == [] ||
    var before, r := log[..|log| - 1], log[|log| - 1];
    var m := Replay(w, Initial(w), before);
    && Legal(w, before)
    && r.msgId == w.msgId(r.key)
    && (r.InputApplied? ==>
          m.inbox.Classify(r.key) == NEW && StampedBy(w.cfg, m.seqr, r.key.client, r.msgId, r.outputs))
    && (r.InputDone? ==> r.key in AppliedKeys(before))
  }

  /** Inputs that a replay applies anew. */
  function Recounted<S, C>(w: Worker<S, C>, m: Mem<S>, rs: seq<Record<C>>): nat {
    if rs == [] then 0
    else
      var init, r := rs[..|rs| - 1], rs[|rs| - 1];
      Recounted(w, m, init) + if r.InputApplied? && Replay(w, m, init).inbox.Classify(r.key) == NEW then 1 else 0
  }

  function Inputs<C>(rs: seq<Record<C>>): nat {
    if rs == [] then 0 else Inputs(rs[..|rs| - 1]) + if rs[|rs| - 1].InputApplied? then 1 else 0
  }

  lemma {:induction false} NoneRecounted<S, C>(w: Worker<S, C>, m: Mem<S>, rs: seq<Record<C>>)
    requires forall i :: 0 <= i < |rs| ==> Settled(m, rs[i])
    ensures Recounted(w, m, rs) == 0
  {
    hide InboxView.Classify;
    if rs != [] {
      NoneRecounted(w, m, rs[..|rs| - 1]);
      ReplaySettled(w, m, rs[..|rs| - 1]);
      assert Settled(m, rs[|rs| - 1]);
    }
  }

  /** What a replay of the log file over a snapshot applies anew are the inputs applied since the snapshot. */
  lemma {:induction false} RecountedIs<S, C>(w: Worker<S, C>, log: seq<Record<C>>, start: nat, taken: nat)
    requires Legal(w, log) && start <= taken <= |log|
    ensures Recounted(w, Replay(w, Initial(w), log[..taken]), log[start..]) == Inputs(log[taken..])
  {
    hide InboxView.Classify, Replay, AppliedKeys;
    var snapshot := Replay(w, Initial(w), log[..taken]);
    if taken == |log| {
      forall i | 0 <= i < |log| - start ensures Settled(snapshot, log[start..][i]) {
        ReplayedIsSettled(w, Initial(w), log[..taken], start + i);
      }
      NoneRecounted(w, snapshot, log[start..]);
    } else {
      var init, r := log[..|log| - 1], log[|log| - 1];
      RecountedIs(w, init, start, taken);
      SuffixOverSnapshot(w, init, start, taken);
      assert init[..taken] == log[..taken];
      assert log[start..][..|log| - start - 1] == init[start..];
      assert log[taken..][..|log| - taken - 1] == init[taken..];
    }
  }

  lemma LegalSnoc<S, C>(w: Worker<S, C>, log: seq<Record<C>>, r: Record<C>)
    requires Legal(w, log) && r.msgId == w.msgId(r.key)
    requires var m := Replay(w, Initial(w), log);
             r.InputApplied? ==>
               m.inbox.Classify(r.key) == NEW && StampedBy(w.cfg, m.seqr, r.key.client, r.msgId, r.outputs)
    requires r.InputDone? ==> r.key in AppliedKeys(log)
    ensures Legal(w, log + [r])
  {
    assert (log + [r])[..|log|] == log;
  }

  /** What the inbox knows about `k`, read off the log. */
  ghost predicate InboxReads<C>(inbox: InboxView, log: seq<Record<C>>, k: Key) {
    var history := DoneHistory(log, k.client, BucketOf(k));
    && (inbox.InApplied(k) <==> k in AppliedKeys(log) && k !in DoneKeys(log))
    && inbox.TrackerOf(k) == (if history == [] then None else Some(After(history)))
    && (k in DoneKeys(log) ==> k in AppliedKeys(log) && k.seqNo in history)
  }

  /** A NEW input is in no record. */
  lemma NewIsUnseen<C>(inbox: InboxView, log: seq<Record<C>>, k: Key)
    requires InboxReads(inbox, log, k) && inbox.Classify(k) == NEW
    ensures k !in AppliedKeys(log) && k !in DoneKeys(log)
  {
    DuplicateIff(DoneHistory(log, k.client, BucketOf(k)), k.seqNo);
  }

  lemma InboxReadsApplied<C>(inbox: InboxView, log: seq<Record<C>>, r: Record<C>, k: Key)
    requires r.InputApplied? && inbox.Classify(r.key) == NEW
    requires InboxReads(inbox, log, k) && InboxReads(inbox, log, r.key)
    ensures InboxReads(inbox.MarkApplied(r.key), log + [r], k)
  {
    assert (log + [r])[..|log|] == log;
    NewIsUnseen(inbox, log, r.key);
  }

  lemma InboxReadsDone<C>(inbox: InboxView, log: seq<Record<C>>, r: Record<C>, k: Key)
    requires r.InputDone? && r.key in AppliedKeys(log)
    requires InboxReads(inbox, log, k) && InboxReads(inbox, log, r.key)
    ensures InboxReads(if inbox.Classify(r.key) == DONE then inbox else inbox.MarkDone(r.key), log + [r], k)
  {
    assert (log + [r])[..|log|] == log;
    var history := DoneHistory(log, r.key.client, BucketOf(r.key));
    assert (history + [r.key.seqNo])[..|history|] == history;
    assert After(history + [r.key.seqNo]) == After(history).Observe(r.key.seqNo);
    if inbox.Classify(r.key) != DONE {
      hide InboxView.MarkDone;
      MarkDoneApplied(inbox, r.key, k);
      MarkDoneTracker(inbox, r.key, k);
      assert history == [] ==> After(history) == FRESH;
    } else {
      assert After(history).pending - {r.key.seqNo} == After(history).pending;
      assert After(history).Observe(r.key.seqNo) == After(history);
    }
  }

  /** The inbox, read off the log. */
  lemma {:induction false} InboxMeaning<S, C>(w: Worker<S, C>, log: seq<Record<C>>, k: Key)
    requires Legal(w, log)
    ensures InboxReads(Replay(w, Initial(w), log).inbox, log, k)
  {
    if log != [] {
      var before, r := log[..|log| - 1], log[|log| - 1];
      var m := Replay(w, Initial(w), before);
      InboxMeaning(w, before, k);
      InboxMeaning(w, before, r.key);
      assert log == before + [r];
      hide InboxReads, StampedBy;
      if r.InputDone? {
        InboxReadsDone(m.inbox, before, r, k);
      } else {
        InboxReadsApplied(m.inbox, before, r, k);
      }
    }
  }

  /** Exactly how an input is classified, for every log: APPLIED while applied and unfinished;
      otherwise DONE when its sender has finished anything and its number was finished, is 0, or was
      jumped over past the cap; otherwise NEW. */
  lemma StatusMeaning<S, C>(w: Worker<S, C>, log: seq<Record<C>>, k: Key)
    requires Legal(w, log)
    ensures var history := DoneHistory(log, k.client, BucketOf(k));
            Replay(w, Initial(w), log).inbox.Classify(k) ==
            if k in AppliedKeys(log) && k !in DoneKeys(log) then APPLIED
            else if history != [] && (k.seqNo == 0 || k.seqNo in history || JumpedOver(history, k.seqNo)) then DONE
            else NEW
  {
    InboxMeaning(w, log, k);
    DuplicateIff(DoneHistory(log, k.client, BucketOf(k)), k.seqNo);
  }

  /** The change of an input enters the worker state at most once, however often the input is
      delivered and the log replayed; the state is the fold of the changes in log order. */
  lemma {:induction false} AppliedAtMostOnce<S, C>(w: Worker<S, C>, log: seq<Record<C>>)
    requires Legal(w, log)
    ensures Distinct(AppliedInOrder(log))
    ensures forall k :: k in AppliedInOrder(log) <==> k in AppliedKeys(log)
    ensures |AppliedInOrder(log)| == |Changes(log)|
    ensures Replay(w, Initial(w), log).worker == FoldChanges(w, Changes(log))
  {
    if log != [] {
      var before, r := log[..|log| - 1], log[|log| - 1];
      AppliedAtMostOnce(w, before);
      if r.InputApplied? {
        hide StampedBy, InboxReads;
        InboxMeaning(w, before, r.key);
        NewIsUnseen(Replay(w, Initial(w), before).inbox, before, r.key);
        assert (Changes(before) + [r.change])[..|Changes(before)|] == Changes(before);
      }
    }
  }

  /** An input waits in the outbox exactly while it is applied and unfinished, with the outputs its
      record holds. */
  lemma {:induction false} OutboxMeaning<S, C>(w: Worker<S, C>, log: seq<Record<C>>, k: Key)
    requires Legal(w, log) && Injective(w)
    ensures var out := Replay(w, Initial(w), log).outbox;
            && (Holds(out, k.client, w.msgId(k)) <==> k in AppliedKeys(log) && k !in DoneKeys(log))
            && (Holds(out, k.client, w.msgId(k)) ==> EntriesFor(out, k.client, w.msgId(k)) == OutputsOf(log, k))
  {
    if log != [] {
      var before, r := log[..|log| - 1], log[|log| - 1];
      var m := Replay(w, Initial(w), before);
      OutboxMeaning(w, before, k);
      OutboxMeaning(w, before, r.key);
      StatusMeaning(w, before, r.key);
      InboxMeaning(w, before, r.key);
      if r.InputApplied? {
        AddedWaiting(m.outbox, r.key.client, r.msgId, r.outputs, k.client, w.msgId(k));
      } else {
        RemovedWaiting(m.outbox, r.key.client, r.msgId, k.client, w.msgId(k));
      }
      assert k != r.key && k.client == r.key.client ==> w.msgId(k) != w.msgId(r.key);
    }
  }

  /** Whatever waits in the outbox belongs to some applied and unfinished input. */
  lemma {:induction false} WaitingHasInput<S, C>(w: Worker<S, C>, log: seq<Record<C>>, c: nat, i: string)
    returns (k: Key)
    requires Legal(w, log) && Injective(w)
    requires Holds(Replay(w, Initial(w), log).outbox, c, i)
    ensures k.client == c && w.msgId(k) == i
    ensures k in AppliedKeys(log) && k !in DoneKeys(log)
  {
    var before, r := log[..|log| - 1], log[|log| - 1];
    var m := Replay(w, Initial(w), before);
    StatusMeaning(w, before, r.key);
    InboxMeaning(w, before, r.key);
    if r.InputApplied? {
      AddedWaiting(m.outbox, r.key.client, r.msgId, r.outputs, c, i);
      if (c, i) == (r.key.client, r.msgId) {
        k := r.key;
        OutboxMeaning(w, log, k);
      } else {
        k := WaitingHasInput(w, before, c, i);
      }
    } else {
      RemovedWaiting(m.outbox, r.key.client, r.msgId, c, i);
      k := WaitingHasInput(w, before, c, i);
      OutboxMeaning(w, log, k);
    }
  }

  /** Persisted output numbers are consecutive in every lane and the counters stand past them. */
  lemma {:induction false} NumberingMeaning<S, C>(w: Worker<S, C>, log: seq<Record<C>>)
    requires Legal(w, log) && Wellnamed(w.cfg)
    ensures Consecutive(AllOutputs(log))
    ensures Counts(Replay(w, Initial(w), log).seqr, AllOutputs(log))
  {
    if log != [] {
      var before, r := log[..|log| - 1], log[|log| - 1];
      NumberingMeaning(w, before);
      var m := Replay(w, Initial(w), before);
      if r.InputApplied? {
        var logical :| r.outputs == Stamped(w.cfg, m.seqr, r.key.client, r.msgId, logical);
        StampingIsConsecutive(w.cfg, m.seqr, AllOutputs(before), r.key.client, r.msgId, logical, |logical|);
        assert r.outputs[..|logical|] == r.outputs;
      } else {
        assert AllOutputs(log) == AllOutputs(before);
      }
    }
  }
}
