/** The bounded per-sender deduplication tracker. */
module Dedup {
  const MAX_SEQUENTIAL_GAP: nat := 65_536

  /** `range(lo, hi)` as a set. */
  function Range(lo: nat, hi: nat): (r: set<nat>)
    ensures forall x :: x in r <==> lo <= x < hi
    decreases hi - lo
  {
    if lo >= hi then {} else {lo} + Range(lo + 1, hi)
  }

  /** The persisted form of a tracker: highest sequence number and the gaps below it. */
  datatype Tracker = Tracker(biggest: nat, pending: set<nat>) {
    predicate IsDuplicate(s: nat) {
      s <= biggest && s !in pending
    }

    function Observe(s: nat): Tracker {
      if s <= biggest then Tracker(biggest, pending - {s})
      else if s - biggest - 1 <= MAX_SEQUENTIAL_GAP then
        Tracker(s, pending + Range(biggest + 1, s))
      else Tracker(s, pending)
    }
  }

  const FRESH := Tracker(0, {})

  class DeduplicationTracker {
    var biggest: nat
    var pending: set<nat>

    function View(): Tracker
      reads this
    {
      Tracker(biggest, pending)
    }

    constructor (saved: Tracker)
      ensures View() == saved
    {
      biggest, pending := saved.biggest, saved.pending;
    }

    method IsDuplicate(s: nat) returns (duplicate: bool)
      ensures duplicate == View().IsDuplicate(s)
    {
      duplicate := s <= biggest && s !in pending;
    }

    method Observe(s: nat)
      modifies this
      ensures View() == old(View()).Observe(s)
    {
      if s > biggest {
        var gap := s - biggest - 1;
        if gap <= MAX_SEQUENTIAL_GAP {
          pending := pending + Range(biggest + 1, s);
        }
        biggest := s;
      } else {
        pending := pending - {s};
      }
    }
  }

  /** The tracker after a history of observed sequence numbers. */
  function After(history: seq<nat>): Tracker {
    if history == [] then FRESH
    else After(history[..|history| - 1]).Observe(history[|history| - 1])
  }

  /** The highest number in a history, 0 for the empty one. */
  function Highest(history: seq<nat>): nat {
    if history == [] then 0
    else
      var rest, last := Highest(history[..|history| - 1]), history[|history| - 1];
      if last > rest then last else rest
  }

  /** Observation `i` jumped over `s`, past the cap, so the gap was not recorded. */
  ghost predicate JumpsOver(history: seq<nat>, i: int, s: nat) {
    && 0 <= i < |history|
    && Highest(history[..i]) < s < history[i]
    && history[i] - Highest(history[..i]) - 1 > MAX_SEQUENTIAL_GAP
  }

  ghost predicate JumpedOver(history: seq<nat>, s: nat) {
    exists i :: JumpsOver(history, i, s)
  }

  /** Every observation advances by no more than the cap. */
  ghost predicate WithinCap(history: seq<nat>) {
    forall i :: 0 <= i < |history| ==> history[i] - Highest(history[..i]) - 1 <= MAX_SEQUENTIAL_GAP
  }

  lemma {:induction false} TrackerShape(history: seq<nat>)
    ensures After(history).biggest == Highest(history)
    ensures forall x :: x in After(history).pending ==> 0 < x < Highest(history)
  {
    if history != [] {
      TrackerShape(history[..|history| - 1]);
    }
  }

  lemma JumpedOverSnoc(history: seq<nat>, last: nat, s: nat)
    ensures JumpedOver(history + [last], s) <==>
            (JumpedOver(history, s) || JumpsOver(history + [last], |history|, s))
  {
    var longer := history + [last];
    forall i | 0 <= i < |history|
      ensures JumpsOver(longer, i, s) == JumpsOver(history, i, s)
    {
      assert longer[..i] == history[..i];
    }
    if JumpedOver(history, s) {
      var i :| JumpsOver(history, i, s);
      assert JumpsOver(longer, i, s);
    }
    if JumpedOver(longer, s) {
      var i :| JumpsOver(longer, i, s);
      assert i == |history| || JumpsOver(history, i, s);
    }
  }

  /** Exactly what the tracker reports, for every history: a number is a duplicate when it was
      observed, when it is 0, or when a jump past the cap skipped it. */
  lemma {:induction false} DuplicateIff(history: seq<nat>, s: nat)
    ensures After(history).IsDuplicate(s) <==> s == 0 || s in history || JumpedOver(history, s)
  {
    if history == [] {
    } else {
      var init, last := history[..|history| - 1], history[|history| - 1];
      assert history == init + [last];
      TrackerShape(init);
      DuplicateIff(init, s);
      JumpedOverSnoc(init, last, s);
      assert history[..|init|] == init;
      assert s in history <==> s in init || s == last;
      NeverBeyondHighest(init, s);
    }
  }

  lemma {:induction false} NeverBeyondHighest(history: seq<nat>, s: nat)
    ensures s in history || JumpedOver(history, s) ==> s <= Highest(history)
  {
    if history != [] {
      var init, last := history[..|history| - 1], history[|history| - 1];
      assert history == init + [last];
      NeverBeyondHighest(init, s);
      JumpedOverSnoc(init, last, s);
    }
  }

  /** Within the cap the tracker is exact for every number from 1 on. */
  lemma ExactWithinCap(history: seq<nat>, s: nat)
    requires WithinCap(history)
    ensures s >= 1 ==> (After(history).IsDuplicate(s) <==> s in history)
  {
    DuplicateIff(history, s);
  }

  /** A duplicate stays a duplicate, whatever is observed later. */
  lemma StaysDuplicate(t: Tracker, x: nat, s: nat)
    requires t.IsDuplicate(s)
    ensures t.Observe(x).IsDuplicate(s)
  {
  }

  lemma ObservedIsDuplicate(t: Tracker, s: nat)
    requires forall x :: x in t.pending ==> x <= t.biggest
    ensures t.Observe(s).IsDuplicate(s)
  {
  }

  /** In-order observation 0, 1, ..., n-1 leaves no gaps behind. */
  function InOrder(n: nat): seq<nat> {
    seq(n, i => i)
  }

  lemma {:induction false} InOrderTracker(n: nat)
    ensures After(InOrder(n)) == Tracker(if n == 0 then 0 else n - 1, {})
  {
    if n > 0 {
      InOrderTracker(n - 1);
      assert InOrder(n)[..n - 1] == InOrder(n - 1);
      assert InOrder(n)[n - 1] == n - 1;

    }
  }
}
