/** Per-client deduplication: classifies each incoming message as NEW, APPLIED or DONE. */
module Inboxes {
  import opened Prelude
  import opened Messages
  import opened Dedup

  datatype Status = NEW | APPLIED | DONE

  /** (kind, sender, seq) of an input within its client. */
  type Triple = (MsgKind, nat, nat)

  /** (kind, sender): one deduplication tracker each. */
  type Bucket = (MsgKind, nat)

  function TripleOf(k: Key): Triple { (k.kind, k.sender, k.seqNo) }

  function BucketOf(k: Key): Bucket { (k.kind, k.sender) }

  /** The persisted form of an inbox. */
  datatype InboxView = InboxView(applied: map<nat, set<Triple>>, done: map<nat, map<Bucket, Tracker>>) {
    /** The tracker of the bucket of `k`, if any input of that bucket ever finished. */
    function TrackerOf(k: Key): Option<Tracker> {
      if k.client in done && BucketOf(k) in done[k.client] then Some(done[k.client][BucketOf(k)]) else None
    }

    predicate InApplied(k: Key) {
      TripleOf(k) in Get(applied, k.client, {})
    }

    function Classify(k: Key): Status {
      if InApplied(k) then APPLIED
      else if TrackerOf(k).Some? && TrackerOf(k).value.IsDuplicate(k.seqNo) then DONE
      else NEW
    }

    function MarkApplied(k: Key): InboxView {
      this.(applied := applied[k.client := Get(applied, k.client, {}) + {TripleOf(k)}])
    }

    function MarkDone(k: Key): InboxView {
      var kept := Get(applied, k.client, {}) - {TripleOf(k)};
      var tracker := (if TrackerOf(k).Some? then TrackerOf(k).value else FRESH).Observe(k.seqNo);
      InboxView(if kept == {} then Pop(applied, k.client) else applied[k.client := kept],
                done[k.client := Get(done, k.client, map[])[BucketOf(k) := tracker]])
    }

    /** Recorded gaps lie below the highest number seen. */
    ghost predicate Sound() {
      forall c, b :: c in done && b in done[c] ==>
        forall x :: x in done[c][b].pending ==> x <= done[c][b].biggest
    }
  }

  const EMPTY_INBOX := InboxView(map[], map[])

  class Inbox {
    var applied: map<nat, set<Triple>>
    var done: map<nat, map<Bucket, Tracker>>

    function View(): InboxView
      reads this
    {
      InboxView(applied, done)
    }

    constructor (saved: InboxView)
      ensures View() == saved
    {
      applied, done := saved.applied, saved.done;
    }

    method Classify(k: Key) returns (status: Status)
      ensures status == View().Classify(k)
    {
      if k.client in applied && TripleOf(k) in applied[k.client] {
        return APPLIED;
      }
      if k.client in done && BucketOf(k) in done[k.client] {
        var tracker := new DeduplicationTracker(done[k.client][BucketOf(k)]);
        var duplicate := tracker.IsDuplicate(k.seqNo);
        if duplicate {
          return DONE;
        }
      }
      return NEW;
    }

    method MarkApplied(k: Key)
      modifies this
      ensures View() == old(View()).MarkApplied(k)
    {
      if k.client !in applied {
        applied := applied[k.client := {}];
      }
      applied := applied[k.client := applied[k.client] + {TripleOf(k)}];
    }

    method MarkDone(k: Key)
      modifies this
      ensures View() == old(View()).MarkDone(k)
    {
      if k.client in applied {
        applied := applied[k.client := applied[k.client] - {TripleOf(k)}];
        if applied[k.client] == {} {
          applied := applied - {k.client};
        }
      }
      var senders := if k.client in done then done[k.client] else map[];
      var tracker := new DeduplicationTracker(if BucketOf(k) in senders then senders[BucketOf(k)] else FRESH);
      tracker.Observe(k.seqNo);
      done := done[k.client := senders[BucketOf(k) := tracker.View()]];
    }
  }

  /** NEW, APPLIED and DONE in the order an input moves through them. */
  function Rank(s: Status): nat {
    match s case NEW => 0 case APPLIED => 1 case DONE => 2
  }

  lemma MarkAppliedStatus(inbox: InboxView, k: Key, other: Key)
    requires inbox.Classify(k) == NEW
    ensures inbox.MarkApplied(k).Classify(other) == if other == k then APPLIED else inbox.Classify(other)
    ensures inbox.Sound() ==> inbox.MarkApplied(k).Sound()
  {
  }

  lemma MarkDoneApplied(inbox: InboxView, k: Key, other: Key)
    ensures inbox.MarkDone(k).InApplied(other) <==> (other != k && inbox.InApplied(other))
  {
    var kept := Get(inbox.applied, k.client, {}) - {TripleOf(k)};
    if other.client == k.client && other != k {
      assert TripleOf(other) != TripleOf(k);
      assert inbox.InApplied(other) <==> TripleOf(other) in kept;
    }
  }

  lemma MarkDoneTracker(inbox: InboxView, k: Key, other: Key)
    ensures var before := inbox.TrackerOf(k);
            inbox.MarkDone(k).TrackerOf(other) ==
            if other.client == k.client && BucketOf(other) == BucketOf(k)
            then Some((if before.Some? then before.value else FRESH).Observe(k.seqNo))
            else inbox.TrackerOf(other)
  {
  }

  lemma MarkDoneSound(inbox: InboxView, k: Key)
    requires inbox.Sound()
    ensures inbox.MarkDone(k).Sound()
  {
    var after := inbox.MarkDone(k);
    forall c, b | c in after.done && b in after.done[c]
      ensures forall x :: x in after.done[c][b].pending ==> x <= after.done[c][b].biggest
    {
      if c != k.client || b != BucketOf(k) {
        assert c in inbox.done && b in inbox.done[c] && after.done[c][b] == inbox.done[c][b];
      } else if inbox.TrackerOf(k).Some? {
        assert inbox.done[c][b] == inbox.TrackerOf(k).value;
      }
    }
  }

  /** Finishing an input makes it DONE and moves no other input backwards. */
  lemma MarkDoneStatus(inbox: InboxView, k: Key, other: Key)
    requires inbox.Sound()
    ensures inbox.MarkDone(k).Classify(k) == DONE
    ensures Rank(inbox.MarkDone(k).Classify(other)) >= Rank(inbox.Classify(other))
    ensures other != k ==> (inbox.MarkDone(k).Classify(other) == APPLIED <==> inbox.Classify(other) == APPLIED)
  {
    MarkDoneApplied(inbox, k, k);
    MarkDoneApplied(inbox, k, other);
    MarkDoneTracker(inbox, k, k);
    MarkDoneTracker(inbox, k, other);
    var t := if inbox.TrackerOf(k).Some? then inbox.TrackerOf(k).value else FRESH;
    ObservedIsDuplicate(t, k.seqNo);
    if inbox.Classify(other) == DONE && inbox.TrackerOf(other).value.IsDuplicate(other.seqNo) {
      StaysDuplicate(inbox.TrackerOf(other).value, k.seqNo, other.seqNo);
    }
  }

  /** Finishing an input that is already DONE changes nothing in the inbox. */
  lemma MarkDoneAgain(inbox: InboxView, k: Key)
    requires inbox.Classify(k) == DONE
    requires forall c :: c in inbox.applied ==> inbox.applied[c] != {}
    ensures inbox.MarkDone(k) == inbox
  {
    var tracker := inbox.TrackerOf(k).value;
    assert tracker.Observe(k.seqNo) == tracker;
    assert inbox.done[k.client][BucketOf(k) := tracker] == inbox.done[k.client];
    assert inbox.done[k.client := inbox.done[k.client]] == inbox.done;
    var kept := Get(inbox.applied, k.client, {}) - {TripleOf(k)};
    assert kept == Get(inbox.applied, k.client, {});
    if k.client in inbox.applied {
      assert inbox.applied[k.client := kept] == inbox.applied;
    } else {
      assert Pop(inbox.applied, k.client) == inbox.applied;
    }
  }
}
