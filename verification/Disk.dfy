/** The state directory: the double-buffered snapshot and the write-ahead log, file by file. */
module StateDisk {
  import opened Prelude
  import opened Messages
  import opened Inboxes
  import opened Outboxes
  import opened Sequencing
  import opened Engine

  /** Contents of the state directory. A missing file is `None`; a torn temporary file is never read
      and counts as missing. */
  datatype Disk<S, C> = Disk(current: Option<Mem<S>>, previous: Option<Mem<S>>, tmp: Option<Mem<S>>,
                             wal: Option<seq<Record<C>>>, rotated: Option<seq<Record<C>>>) {
    function WriteTmp(m: Mem<S>): Disk<S, C> { this.(tmp := Some(m)) }

    function MoveCurrentToPrevious(): Disk<S, C> {
      if current.Some? then this.(previous := current, current := None) else this
    }

    function MoveTmpToCurrent(): Disk<S, C> {
      if tmp.Some? then this.(current := tmp, tmp := None) else this
    }

    function Append(r: Record<C>): Disk<S, C> { this.(wal := Some(Records() + [r])) }

    function MoveWalAside(): Disk<S, C> {
      if wal.Some? then this.(rotated := wal, wal := None) else this
    }

    function OpenWal(): Disk<S, C> { if wal.Some? then this else this.(wal := Some([])) }

    /** What a replay of the log file yields. */
    function Records(): seq<Record<C>> { if wal.Some? then wal.value else [] }

    /** The snapshot a restart loads: current, else previous, else none. */
    function Load(): Option<Mem<S>> { if current.Some? then current else previous }
  }

  function Base<S, C>(w: Worker<S, C>, d: Disk<S, C>): Mem<S> {
    if d.Load().Some? then d.Load().value else Initial(w)
  }

  /** The memory a restart rebuilds from the directory. */
  function Recovered<S, C>(w: Worker<S, C>, d: Disk<S, C>): Mem<S> {
    Replay(w, Base(w, d), d.Records())
  }

  /** The loadable snapshot reflects the first `taken` records ever written and the log file holds all
      records from `start` on, where `start <= taken`. */
  ghost predicate Covers<S, C>(w: Worker<S, C>, d: Disk<S, C>, log: seq<Record<C>>, start: nat, taken: nat) {
    && start <= taken <= |log|
    && d.Records() == log[start..]
    && Base(w, d) == Replay(w, Initial(w), log[..taken])
  }

  ghost predicate Durable<S, C>(w: Worker<S, C>, d: Disk<S, C>, log: seq<Record<C>>) {
    exists start: nat, taken: nat :: Covers(w, d, log, start, taken)
  }

  /** A durable directory recovers to the fold of every record ever written. */
  lemma DurableRecovers<S, C>(w: Worker<S, C>, d: Disk<S, C>, log: seq<Record<C>>)
    requires Durable(w, d, log)
    ensures Recovered(w, d) == Replay(w, Initial(w), log)
  {
    var start: nat, taken: nat :| Covers(w, d, log, start, taken);
    SuffixOverSnapshot(w, log, start, taken);
  }

  /** And its replay counts the inputs applied since the snapshot it starts from. */
  lemma DurableRecounts<S, C>(w: Worker<S, C>, d: Disk<S, C>, log: seq<Record<C>>)
    requires Durable(w, d, log) && Legal(w, log)
    ensures exists start: nat, taken: nat ::
              Covers(w, d, log, start, taken) && Recounted(w, Base(w, d), d.Records()) == Inputs(log[taken..])
  {
    hide Legal, Replay, Recounted, Inputs;
    var start: nat, taken: nat :| Covers(w, d, log, start, taken);
    RecountedIs(w, log, start, taken);
  }

  lemma AppendKeepsDurable<S, C>(w: Worker<S, C>, d: Disk<S, C>, log: seq<Record<C>>, r: Record<C>)
    requires Durable(w, d, log)
    ensures Durable(w, d.Append(r), log + [r])
  {
    var start: nat, taken: nat :| Covers(w, d, log, start, taken);
    assert (log + [r])[start..] == log[start..] + [r];
    assert (log + [r])[..taken] == log[..taken];
    assert Covers(w, d.Append(r), log + [r], start, taken);
  }

  /** The steps of taking a snapshot, in the order the code runs them. */
  datatype SnapshotStep = TmpWritten | CurrentMoved | TmpMoved | WalMoved | WalOpened

  function SnapshotMove<S, C>(d: Disk<S, C>, step: SnapshotStep, m: Mem<S>): Disk<S, C> {
    match step
    case TmpWritten => d.WriteTmp(m)
    case CurrentMoved => d.MoveCurrentToPrevious()
    case TmpMoved => d.MoveTmpToCurrent()
    case WalMoved => d.MoveWalAside()
    case WalOpened => d.OpenWal()
  }

  /** What must hold before each step: the temporary file holds the snapshot until it is moved, and
      afterwards the snapshot is the current one. */
  ghost predicate SnapshotReady<S, C>(d: Disk<S, C>, step: SnapshotStep, m: Mem<S>) {
    match step
    case TmpWritten => true
    case CurrentMoved => d.tmp == Some(m)
    case TmpMoved => d.tmp == Some(m) && d.current.None?
    case WalMoved => d.current == Some(m)
    case WalOpened => d.current == Some(m)
  }

  /** A directory that loads the same snapshot and the same records is as durable. */
  lemma SameFiles<S, C>(w: Worker<S, C>, d: Disk<S, C>, d': Disk<S, C>, log: seq<Record<C>>)
    requires Durable(w, d, log) && d'.Load() == d.Load() && d'.Records() == d.Records()
    ensures Durable(w, d', log)
  {
    hide Replay;
    var start: nat, taken: nat :| Covers(w, d, log, start, taken);
    assert Covers(w, d', log, start, taken);
  }

  /** A snapshot of the whole log covers it, whatever suffix of the log the log file holds. */
  lemma WholeSnapshot<S, C>(w: Worker<S, C>, d: Disk<S, C>, log: seq<Record<C>>, start: nat)
    requires start <= |log| && d.Records() == log[start..] && d.current == Some(Replay(w, Initial(w), log))
    ensures Durable(w, d, log)
  {
    hide Replay;
    assert log[..|log|] == log;
    assert Covers(w, d, log, start, |log|);
  }

  /** Every single step of a snapshot leaves the directory durable: a crash between any two of them,
      or after the snapshot and before the log rotation, loses nothing. */
  lemma SnapshotStepKeepsDurable<S, C>(w: Worker<S, C>, d: Disk<S, C>, log: seq<Record<C>>, step: SnapshotStep)
    requires Durable(w, d, log)
    requires SnapshotReady(d, step, Replay(w, Initial(w), log))
    ensures Durable(w, SnapshotMove(d, step, Replay(w, Initial(w), log)), log)
  {
    hide Replay;
    var start: nat, taken: nat :| Covers(w, d, log, start, taken);
    hide Durable, Covers;
    var d' := SnapshotMove(d, step, Replay(w, Initial(w), log));
    assert log[|log|..] == [];
    match step
    case TmpMoved => WholeSnapshot(w, d', log, start);
    case WalMoved => WholeSnapshot(w, d', log, if d.wal.Some? then |log| else start);
    case _ => SameFiles(w, d, d', log);
  }

  /** Handling a NEW input: appending its record makes exactly the new memory recoverable. */
  lemma AppliedStep<S, C>(w: Worker<S, C>, d: Disk<S, C>, log: seq<Record<C>>, k: Key, change: C, logical: seq<Logical>)
    requires Legal(w, log) && Durable(w, d, log)
    requires Replay(w, Initial(w), log).inbox.Classify(k) == NEW
    ensures var (m, r) := HandledNew(w, Replay(w, Initial(w), log), k, change, logical);
            && Legal(w, log + [r]) && Durable(w, d.Append(r), log + [r])
            && Replay(w, Initial(w), log + [r]) == m && Recovered(w, d.Append(r)) == m
  {
    hide Stamped, ObserveAll, Added, InboxView.Classify, InboxView.MarkApplied, Covers, Durable;
    var before := Replay(w, Initial(w), log);
    var (m, r) := HandledNew(w, before, k, change, logical);
    assert StampedBy(w.cfg, before.seqr, k.client, r.msgId, r.outputs);
    LegalSnoc(w, log, r);
    ReplaySnoc(w, Initial(w), log, r);
    AppendKeepsDurable(w, d, log, r);
    DurableRecovers(w, d.Append(r), log + [r]);
  }

  /** Committing an applied input: appending InputDone makes exactly the new memory recoverable. */
  lemma DoneStep<S, C>(w: Worker<S, C>, d: Disk<S, C>, log: seq<Record<C>>, k: Key)
    requires Legal(w, log) && Durable(w, d, log) && Injective(w)
    requires k in AppliedKeys(log)
    ensures var r := InputDone(k, w.msgId(k));
            var m := Committed(w, Replay(w, Initial(w), log), k);
            && Legal(w, log + [r]) && Durable(w, d.Append(r), log + [r])
            && Replay(w, Initial(w), log + [r]) == m && Recovered(w, d.Append(r)) == m
  {
    var r := InputDone(k, w.msgId(k));
    var before := Replay(w, Initial(w), log);
    TidyReplay(w, Initial(w), log);
    InboxMeaning(w, log, k);
    OutboxMeaning(w, log, k);
    hide Covers, Durable, InboxView.MarkDone, Removed;
    CommitIsReplay(w, before, k);
    LegalSnoc(w, log, r);
    ReplaySnoc(w, Initial(w), log, r);
    AppendKeepsDurable(w, d, log, r);
    DurableRecovers(w, d.Append(r), log + [r]);
  }

  /** All directory contents of one snapshot recover to the same memory. */
  lemma SnapshotCrashSafe<S, C>(w: Worker<S, C>, d: Disk<S, C>, log: seq<Record<C>>)
    requires Durable(w, d, log)
    ensures var m := Replay(w, Initial(w), log);
            var d1 := d.WriteTmp(m);
            var d2 := d1.MoveCurrentToPrevious();
            var d3 := d2.MoveTmpToCurrent();
            var d4 := d3.MoveWalAside();
            && Recovered(w, d1) == Recovered(w, d2) == Recovered(w, d3) == Recovered(w, d4) == m
            && Recovered(w, d4.OpenWal()) == m
            && Durable(w, d4.OpenWal(), log)
  {
    hide Durable, Replay, Recovered;
    var m := Replay(w, Initial(w), log);
    var d1 := d.WriteTmp(m);
    var d2 := d1.MoveCurrentToPrevious();
    var d3 := d2.MoveTmpToCurrent();
    var d4 := d3.MoveWalAside();
    SnapshotStepKeepsDurable(w, d, log, TmpWritten);
    SnapshotStepKeepsDurable(w, d1, log, CurrentMoved);
    SnapshotStepKeepsDurable(w, d2, log, TmpMoved);
    SnapshotStepKeepsDurable(w, d3, log, WalMoved);
    SnapshotStepKeepsDurable(w, d4, log, WalOpened);
    DurableRecovers(w, d1, log);
    DurableRecovers(w, d2, log);
    DurableRecovers(w, d3, log);
    DurableRecovers(w, d4, log);
    DurableRecovers(w, d4.OpenWal(), log);
  }
}
