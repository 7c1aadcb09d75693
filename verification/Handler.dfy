/** The handler that owns the order of every disk write and memory update. */
module Handling {
  import opened Prelude
  import opened Messages
  import opened Inboxes
  import opened Outboxes
  import opened Sequencing
  import opened Engine
  import opened StateDisk

  /** The state directory as a mutable object. `trail` remembers every content it ever had, which is
      what a crash can expose. */
  class StateDir<S, C> {
    var files: Disk<S, C>
    ghost var trail: seq<Disk<S, C>>

    constructor (files: Disk<S, C>)
      ensures this.files == files && trail == [files]
    {
      this.files, trail := files, [files];
    }

    method Put(files: Disk<S, C>)
      modifies this
      ensures this.files == files && trail == old(trail) + [files]
    {
      this.files, trail := files, trail + [files];
    }
  }

  /** The double-buffered snapshot file. */
  class LastState<S, C> {
    const dir: StateDir<S, C>

    constructor (dir: StateDir<S, C>)
      ensures this.dir == dir
    {
      this.dir := dir;
    }

    method Load() returns (snapshot: Option<Mem<S>>)
      ensures snapshot == dir.files.Load()
    {
      if dir.files.current.Some? {
        return dir.files.current;
      }
      return dir.files.previous;
    }

    method Commit(m: Mem<S>)
      modifies dir
      ensures dir.files == old(dir.files).WriteTmp(m).MoveCurrentToPrevious().MoveTmpToCurrent()
      ensures dir.trail == old(dir.trail)
              + [old(dir.files).WriteTmp(m)]
              + (if old(dir.files).current.Some? then [old(dir.files).WriteTmp(m).MoveCurrentToPrevious()] else [])
              + [dir.files]
    {
      dir.Put(dir.files.WriteTmp(m));
      if dir.files.current.Some? {
        dir.Put(dir.files.MoveCurrentToPrevious());
      }
      dir.Put(dir.files.MoveTmpToCurrent());
    }
  }

  /** The write-ahead log file. */
  class Wal<S, C> {
    const dir: StateDir<S, C>

    /** Opening the log creates the file when it is missing. */
    constructor (dir: StateDir<S, C>)
      modifies dir
      ensures this.dir == dir
      ensures dir.files == old(dir.files).OpenWal() && dir.trail == old(dir.trail) + [dir.files]
    {
      this.dir := dir;
      new;
      dir.Put(dir.files.OpenWal());
    }

    method Append(r: Record<C>)
      modifies dir
      ensures dir.files == old(dir.files).Append(r) && dir.trail == old(dir.trail) + [dir.files]
    {
      dir.Put(dir.files.Append(r));
    }

    method Rotate()
      modifies dir
      ensures dir.files == old(dir.files).MoveWalAside().OpenWal()
      ensures dir.trail == old(dir.trail)
              + (if old(dir.files).wal.Some? then [old(dir.files).MoveWalAside()] else [])
              + [dir.files]
    {
      if dir.files.wal.Some? {
        dir.Put(dir.files.MoveWalAside());
      }
      dir.Put(dir.files.OpenWal());
    }
  }

  datatype Instruction =
    | Ack
    | PublishThenCommit(outputs: seq<Entry>, key: Key)

  class PersistentStateHandler<S, C> {
    const w: Worker<S, C>
    const snapshotEvery: int
    const lastState: LastState<S, C>
    const wal: Wal<S, C>
    var workerState: S
    var inbox: Inbox
    var outbox: Outbox
    var sequencer: SenderSequencer
    var appliedSinceSnapshot: nat
    /** Every record ever appended to the directory, including those rotated away. */
    ghost var log: seq<Record<C>>

    ghost function Memory(): Mem<S>
      reads this, inbox, outbox, sequencer
    {
      Mem(workerState, inbox.View(), outbox.pending, sequencer.View())
    }

    ghost function Repr(): set<object>
      reads this
    {
      {this, inbox, outbox, sequencer, lastState.dir}
    }

    /** The directory is durable for the log; no claim on memory, as right after a restart. */
    ghost predicate Opened()
      reads this, lastState, lastState.dir, inbox, outbox, sequencer
    {
      && wal.dir == lastState.dir
      && sequencer.cfg == w.cfg && ':' !in w.cfg.node
      && Injective(w)
      && Legal(w, log)
      && Durable(w, lastState.dir.files, log)
    }

    /** Memory is the fold of every record ever appended. */
    ghost predicate Valid()
      reads this, lastState, lastState.dir, inbox, outbox, sequencer
    {
      Opened() && Memory() == Replay(w, Initial(w), log)
    }

    /** Every directory content since `before` recovers to memory `a` or memory `b`. */
    ghost predicate CrashSafe(before: nat, a: Mem<S>, b: Mem<S>)
      reads this, lastState, lastState.dir
    {
      forall i :: before <= i < |lastState.dir.trail| ==>
        var m := Recovered(w, lastState.dir.trail[i]);
        m == a || m == b
    }

    /** A process starting over an existing directory, or an empty one with an empty log. */
    constructor (w: Worker<S, C>, snapshotEvery: int, dir: StateDir<S, C>, ghost log: seq<Record<C>>)
      requires ':' !in w.cfg.node && Injective(w)
      requires Legal(w, log) && Durable(w, dir.files, log)
      modifies dir
      ensures Opened() && this.w == w && lastState.dir == dir && this.log == log
      ensures fresh(Repr() - {dir})
      ensures CrashSafe(|old(dir.trail)|, Replay(w, Initial(w), log), Replay(w, Initial(w), log))
    {
      this.w, this.snapshotEvery, this.log := w, snapshotEvery, log;
      workerState := w.init;
      inbox := new Inbox(EMPTY_INBOX);
      outbox := new Outbox(map[]);
      sequencer := new SenderSequencer(w.cfg, NO_COUNTERS);
      appliedSinceSnapshot := 0;
      lastState := new LastState(dir);
      wal := new Wal(dir);
      new;
      ghost var start: nat, taken: nat :| Covers(w, old(dir.files), log, start, taken);
      assert Covers(w, dir.files, log, start, taken);
      DurableRecovers(w, dir.files, log);
    }

    /** Rebuilds memory from the newest snapshot and the log, record by record. */
    method Recover()
      requires Opened()
      modifies this, inbox, outbox, sequencer
      ensures Valid() && log == old(log)
      ensures Memory() == Recovered(w, lastState.dir.files)
      ensures exists start: nat, taken: nat ::
                Covers(w, lastState.dir.files, log, start, taken) && appliedSinceSnapshot == Inputs(log[taken..])
      ensures fresh(inbox) && fresh(outbox) && fresh(sequencer)
    {
      hide Legal, Durable, Injective, Replay, Covers, Inputs, Recounted;
      DurableRecovers(w, lastState.dir.files, log);
      DurableRecounts(w, lastState.dir.files, log);
      var snapshot := lastState.Load();
      Restore(if snapshot.Some? then snapshot.value else Initial(w));
      appliedSinceSnapshot := ReplayAll(lastState.dir.files.Records());
    }

    /** Memory as a snapshot holds it, in new objects. */
    method Restore(m: Mem<S>)
      requires ':' !in w.cfg.node
      modifies this`workerState, this`inbox, this`outbox, this`sequencer
      ensures Memory() == m && sequencer.cfg == w.cfg
      ensures fresh(inbox) && fresh(outbox) && fresh(sequencer)
    {
      workerState := m.worker;
      inbox := new Inbox(m.inbox);
      outbox := new Outbox(m.outbox);
      sequencer := new SenderSequencer(w.cfg, m.seqr);
    }

    /** Replays the records of the log file in order and counts the inputs newly applied. */
    method ReplayAll(records: seq<Record<C>>) returns (applied: nat)
      modifies this`workerState, inbox, outbox, sequencer
      ensures Memory() == Replay(w, old(Memory()), records) && applied == Recounted(w, old(Memory()), records)
    {
      hide ApplyRecord, InboxView.Classify;
      applied := 0;
      for i := 0 to |records|
        invariant Memory() == Replay(w, old(Memory()), records[..i])
        invariant applied == Recounted(w, old(Memory()), records[..i])
      {
        assert records[..i + 1][..i] == records[..i];
        var counted := ApplyOne(records[i]);
        if counted {
          applied := applied + 1;
        }
      }
      assert records[..|records|] == records;
    }

    method ApplyOne(r: Record<C>) returns (counted: bool)
      modifies this`workerState, inbox, outbox, sequencer
      ensures Memory() == ApplyRecord(w, old(Memory()), r)
      ensures counted <==> r.InputApplied? && old(Memory()).inbox.Classify(r.key) == NEW
    {
      counted := false;
      var status := inbox.Classify(r.key);
      match r
      case InputApplied(k, id, change, outputs) =>
        if status == NEW {
          workerState := w.apply(workerState, change);
          inbox.MarkApplied(k);
          outbox.Add(k.client, id, outputs);
          sequencer.Observe(outputs);
          counted := true;
        }
      case InputDone(k, id) =>
        if status != DONE {
          inbox.MarkDone(k);
          outbox.RemoveInput(k.client, id);
        }
    }

    /** Handles one delivery. A NEW input is logged before memory changes; an input already applied is
        published again from the outbox; a finished one is only acknowledged. */
    method Handle(k: Key, business: S -> (C, seq<Logical>)) returns (instruction: Instruction)
      requires Valid()
      modifies this, inbox, outbox, sequencer, lastState.dir
      ensures Valid() && inbox == old(inbox) && outbox == old(outbox) && sequencer == old(sequencer)
      ensures match old(Memory()).inbox.Classify(k)
              case NEW =>
                var (change, logical) := business(old(workerState));
                var (m, r) := HandledNew(w, old(Memory()), k, change, logical);
                && Memory() == m && log == old(log) + [r]
                && instruction == PublishThenCommit(r.outputs, k)
                && appliedSinceSnapshot == old(appliedSinceSnapshot) + 1
              case APPLIED =>
                && Memory() == old(Memory()) && log == old(log) && lastState.dir.files == old(lastState.dir.files)
                && instruction == PublishThenCommit(EntriesFor(Memory().outbox, k.client, w.msgId(k)), k)
                && appliedSinceSnapshot == old(appliedSinceSnapshot)
              case DONE =>
                && Memory() == old(Memory()) && log == old(log) && lastState.dir.files == old(lastState.dir.files)
                && instruction == Ack && appliedSinceSnapshot == old(appliedSinceSnapshot)
      ensures CrashSafe(|old(lastState.dir.trail)|, old(Memory()), Memory())
    {
      hide Legal, Durable, Injective, Replay, Recovered, Stamped, ObserveAll, Added;
      var status := inbox.Classify(k);
      if status == DONE {
        return Ack;
      }
      if status == NEW {
        var (change, logical) := business(workerState);
        AppliedStep(w, lastState.dir.files, log, k, change, logical);
        var outputs := sequencer.Stamp(k.client, w.msgId(k), logical);
        var r := InputApplied(k, w.msgId(k), change, outputs);
        wal.Append(r);
        log := log + [r];
        sequencer.Observe(outputs);
        workerState := w.apply(workerState, change);
        inbox.MarkApplied(k);
        outbox.Add(k.client, w.msgId(k), outputs);
        appliedSinceSnapshot := appliedSinceSnapshot + 1;
        assert EntriesFor(outbox.pending, k.client, w.msgId(k)) == outputs by {
          AddedWaiting(old(outbox.pending), k.client, w.msgId(k), outputs, k.client, w.msgId(k));
        }
      }
      var entries := outbox.EntriesForInput(k.client, w.msgId(k));
      return PublishThenCommit(entries, k);
    }

    /** Commits an applied input: InputDone is logged before memory changes, then a snapshot is taken
        when enough inputs were applied. */
    method CommitDone(k: Key)
      requires Valid() && k in AppliedKeys(log)
      modifies this, inbox, outbox, sequencer, lastState.dir
      ensures Valid() && inbox == old(inbox) && outbox == old(outbox) && sequencer == old(sequencer)
      ensures log == old(log) + [InputDone(k, w.msgId(k))]
      ensures Memory() == Committed(w, old(Memory()), k)
      ensures var files := lastState.dir.files;
              if old(appliedSinceSnapshot) >= snapshotEvery
              then files.current == Some(Memory()) && files.wal == Some([]) && appliedSinceSnapshot == 0
              else && files == old(lastState.dir.files).Append(InputDone(k, w.msgId(k)))
                   && appliedSinceSnapshot == old(appliedSinceSnapshot)
      ensures CrashSafe(|old(lastState.dir.trail)|, old(Memory()), Memory())
    {
      hide Legal, Durable, Injective, Replay, Recovered, Removed, AppliedKeys;
      DoneStep(w, lastState.dir.files, log, k);
      wal.Append(InputDone(k, w.msgId(k)));
      log := log + [InputDone(k, w.msgId(k))];
      inbox.MarkDone(k);
      outbox.RemoveInput(k.client, w.msgId(k));
      if appliedSinceSnapshot >= snapshotEvery {
        SnapshotNow();
      }
    }

    /** Takes a snapshot and rotates the log. Whatever the moment of a crash, a restart rebuilds the
        same memory. */
    method SnapshotNow()
      requires Valid()
      modifies this`appliedSinceSnapshot, lastState.dir
      ensures Valid() && Memory() == old(Memory()) && appliedSinceSnapshot == 0
      ensures var was := old(lastState.dir.files);
              lastState.dir.files ==
              Disk(Some(Memory()), if was.current.Some? then was.current else was.previous, None, Some([]),
                   if was.wal.Some? then was.wal else was.rotated)
      ensures |old(lastState.dir.trail)| <= |lastState.dir.trail|
      ensures old(lastState.dir.trail) <= lastState.dir.trail
      ensures CrashSafe(|old(lastState.dir.trail)|, Memory(), Memory())
    {
      hide Legal, Durable, Injective, Replay, Recovered;
      SnapshotCrashSafe(w, lastState.dir.files, log);
      lastState.Commit(Mem(workerState, inbox.View(), outbox.pending, SeqView(sequencer.nextSeq, sequencer.nextAddr)));
      wal.Rotate();
      appliedSinceSnapshot := 0;
    }
  }
}
