/** The consume loop around the handler, and the input ids it uses. */
module Loop {
  import opened Prelude
  import opened Text
  import opened Messages
  import opened Inboxes
  import opened Outboxes
  import opened Sequencing
  import opened Engine
  import opened StateDisk
  import opened Handling
  import Runner

  /** The outputs a delivery of `k` publishes from memory `m`. */
  ghost function Due<S, C>(w: Worker<S, C>, m: Mem<S>, k: Key, business: S -> (C, seq<Logical>)): seq<Entry> {
    match m.inbox.Classify(k)
    case NEW => Stamped(w.cfg, m.seqr, k.client, w.msgId(k), business(m.worker).1)
    case APPLIED => EntriesFor(m.outbox, k.client, w.msgId(k))
    case DONE => []
  }

  /** The records a delivery appends when it is published and committed (or only published in part). */
  ghost function Written<S, C>(w: Worker<S, C>, m: Mem<S>, k: Key, business: S -> (C, seq<Logical>),
                               committed: bool): seq<Record<C>> {
    var (change, logical) := business(m.worker);
    (if m.inbox.Classify(k) == NEW then [HandledNew(w, m, k, change, logical).1] else []) +
    (if committed && m.inbox.Classify(k) != DONE then [InputDone(k, w.msgId(k))] else [])
  }

  class WorkerRunner<S, C> {
    const handler: PersistentStateHandler<S, C>
    const publishers: set<string>
    /** Everything handed to a publisher and confirmed, in order. */
    var sent: seq<Entry>

    constructor (handler: PersistentStateHandler<S, C>, publishers: set<string>)
      ensures this.handler == handler && this.publishers == publishers && sent == []
    {
      this.handler, this.publishers, sent := handler, publishers, [];
    }

    /** Publishes in order; a destination without publisher stops it. */
    method Publish(entries: seq<Entry>) returns (ok: bool)
      modifies this
      ensures ok <==> forall e :: e in entries ==> e.destination in publishers
      ensures ok ==> sent == old(sent) + entries
      ensures exists n :: 0 <= n <= |entries| && sent == old(sent) + entries[..n]
    {
      for i := 0 to |entries|
        invariant sent == old(sent) + entries[..i]
        invariant forall j :: 0 <= j < i ==> entries[j].destination in publishers
      {
        if entries[i].destination !in publishers {
          return false;
        }
        sent := sent + [entries[i]];
        assert entries[..i + 1] == entries[..i] + [entries[i]];
      }
      assert entries[..|entries|] == entries;
      return true;
    }

    /** Rebuilds the state and publishes every waiting output, and nothing else, before anything is consumed. */
    method RecoverAndRepublish() returns (ok: bool, ghost pending: seq<Entry>)
      requires handler.Opened()
      modifies this, handler, handler.inbox, handler.outbox, handler.sequencer
      ensures handler.Valid() && handler.log == old(handler.log)
      ensures forall e :: e in pending <==> IsPending(handler.log, e)
      ensures ok <==> forall e :: e in pending ==> e.destination in publishers
      ensures ok ==> sent == old(sent) + pending
      ensures exists n :: 0 <= n <= |pending| && sent == old(sent) + pending[..n]
    {
      hide Replay, Legal, Durable, IsPending;
      handler.Recover();
      var entries, inputs := handler.outbox.AllPending();
      pending := entries;
      forall e ensures e in pending <==> IsPending(handler.log, e) {
        Runner.RepublishesExactly(handler.w, handler.log, inputs, e);
      }
      ok := Publish(entries);
    }

    /** One delivery: handle, publish, commit, acknowledge; a failed publish returns the message. */
    method Process(k: Key, business: S -> (C, seq<Logical>)) returns (acked: bool)
      requires handler.Valid()
      modifies this, handler, handler.inbox, handler.outbox, handler.sequencer, handler.lastState.dir
      ensures handler.Valid()
      ensures var due := Due(handler.w, old(handler.Memory()), k, business);
              && (acked <==> forall e :: e in due ==> e.destination in publishers)
              && (acked ==> sent == old(sent) + due)
              && exists n :: 0 <= n <= |due| && sent == old(sent) + due[..n]
      ensures handler.log == old(handler.log) + Written(handler.w, old(handler.Memory()), k, business, acked)
      ensures acked ==> handler.Memory().inbox.Classify(k) == DONE
      ensures !acked ==> handler.Memory().inbox.Classify(k) == APPLIED
    {
      hide Replay, Durable, Stamped, InboxView.Classify, AppliedKeys, Added;
      ghost var m := handler.Memory();
      ghost var log := handler.log;
      var instruction := handler.Handle(k, business);
      match instruction
      case Ack =>
        assert sent == sent + Due(handler.w, m, k, business)[..0];
        acked := true;
      case PublishThenCommit(outputs, _) =>
        assert outputs == Due(handler.w, m, k, business);
        HandledIsApplied(handler.w, log, k, business(m.worker).0, business(m.worker).1);
        acked := PublishAndCommit(k, outputs);
    }

    method PublishAndCommit(k: Key, outputs: seq<Entry>) returns (acked: bool)
      requires handler.Valid() && k in AppliedKeys(handler.log)
      modifies this, handler, handler.inbox, handler.outbox, handler.sequencer, handler.lastState.dir
      ensures handler.Valid()
      ensures acked <==> forall e :: e in outputs ==> e.destination in publishers
      ensures acked ==> sent == old(sent) + outputs
      ensures exists n :: 0 <= n <= |outputs| && sent == old(sent) + outputs[..n]
      ensures handler.log == old(handler.log) + if acked then [InputDone(k, handler.w.msgId(k))] else []
      ensures acked ==> handler.Memory().inbox.Classify(k) == DONE
      ensures !acked ==> handler.Memory() == old(handler.Memory())
    {
      hide Durable, AppliedKeys, InboxView.Classify;
      acked := Publish(outputs);
      if acked {
        ghost var log := handler.log;
        handler.CommitDone(k);
        DoneIsDone(handler.w, log, k);
      }
    }
  }

  lemma DoneIsDone<S, C>(w: Worker<S, C>, log: seq<Record<C>>, k: Key)
    requires Legal(w, log + [InputDone(k, w.msgId(k))])
    ensures Replay(w, Initial(w), log + [InputDone(k, w.msgId(k))]).inbox.Classify(k) == DONE
  {
    hide Replay, Legal;
    var more: seq<Record<C>> := log + [InputDone(k, w.msgId(k))];
    assert k in DoneKeys(more);
    InboxMeaning(w, more, k);
    StatusMeaning(w, more, k);
  }

  lemma HandledIsApplied<S, C>(w: Worker<S, C>, log: seq<Record<C>>, k: Key, change: C, logical: seq<Logical>)
    requires Legal(w, log)
    ensures var m := Replay(w, Initial(w), log);
            && (m.inbox.Classify(k) == NEW ==>
                  && k in AppliedKeys(log + [HandledNew(w, m, k, change, logical).1])
                  && HandledNew(w, m, k, change, logical).0.inbox.Classify(k) == APPLIED)
            && (m.inbox.Classify(k) == APPLIED ==> k in AppliedKeys(log))
  {
    var m := Replay(w, Initial(w), log);
    StatusMeaning(w, log, k);
    if m.inbox.Classify(k) == NEW {
      MarkAppliedStatus(m.inbox, k, k);
      var r := HandledNew(w, m, k, change, logical).1;
      assert (log + [r])[..|log|] == log;
    }
  }

  // ----- The runner's own input ids -----

  /** `f"{sender}:{seq}"` for data and `f"abort:{sender}:{client}:{seq}"` for aborts. */
  function DataId(k: Key): string { Join(Decimal(k.sender), Decimal(k.seqNo)) }

  function AbortId(k: Key): string {
    Join("abort", Join(Decimal(k.sender), Join(Decimal(k.client), Decimal(k.seqNo))))
  }

  function RunnerId(k: Key): string { if k.kind.ABORT? then AbortId(k) else DataId(k) }

  lemma DecimalInjective(a: nat, b: nat)
    requires Decimal(a) == Decimal(b)
    ensures a == b
  {
    ParseInvertsDecimal(a);
    ParseInvertsDecimal(b);
  }

  lemma RunnerIdFields(k: Key)
    ensures k.kind.ABORT? ==>
            Split(RunnerId(k), ':') == ["abort", Decimal(k.sender), Decimal(k.client), Decimal(k.seqNo)]
    ensures !k.kind.ABORT? ==> Split(RunnerId(k), ':') == [Decimal(k.sender), Decimal(k.seqNo)]
  {
    hide Join, Split, Decimal;
    DigitsAvoid(Decimal(k.sender), ':');
    DigitsAvoid(Decimal(k.client), ':');
    DigitsAvoid(Decimal(k.seqNo), ':');
    SplitFree(Decimal(k.seqNo), ':');
    JoinFree(Decimal(k.sender), Decimal(k.seqNo));
    Join3(Decimal(k.sender), Decimal(k.client), Decimal(k.seqNo));
    JoinFree("abort", Join(Decimal(k.sender), Join(Decimal(k.client), Decimal(k.seqNo))));
  }

  /** The ids of the runner identify its inputs, so the assumption on input ids holds for it. */
  lemma RunnerIdsAreInjective(a: Key, b: Key)
    requires a.kind in {DATA, ABORT} && b.kind in {DATA, ABORT}
    requires a.client == b.client && RunnerId(a) == RunnerId(b)
    ensures a == b
  {
    hide RunnerId, Split, Decimal;
    RunnerIdFields(a);
    RunnerIdFields(b);
    var fa, fb := Split(RunnerId(a), ':'), Split(RunnerId(b), ':');
    assert |fa| == |fb| && a.kind == b.kind;
    assert fa[|fa| - 1] == fb[|fb| - 1];
    assert fa[if a.kind.ABORT? then 1 else 0] == fb[if a.kind.ABORT? then 1 else 0];
    DecimalInjective(a.sender, b.sender);
    DecimalInjective(a.seqNo, b.seqNo);
  }
}
