/** Runs of one monitor: its threads interleave at lock granularity, and it may crash at any moment. */
module ElectionRuns {
  import opened Prelude
  import opened Elections

  /** An election in progress: its generation, the next peer to ask, whether a higher one answered; and, for
      the record, the epochs of the OKs collected and whether an announcement was accepted meanwhile. */
  datatype Election = Election(generation: nat, next: nat, higher: bool, collected: seq<nat>, accepted: bool)

  /** `stored` lists every epoch that has been on disk, `wins` the epochs of the elections won. */
  datatype Node = Node(m: Monitor, disk: nat, election: Option<Election>, stored: seq<nat>, wins: seq<nat>)

  datatype Step =
    | Begin
    /** The next peer is asked; no reply stands for a peer that cannot be reached as well. */
    | AskPeer(reply: Option<Message>)
    | Finish
    | Receive(msg: Message)
    | Halt
    | Crash
    /** Down after the step reached the disk, before anything else of it was seen. */
    | CrashAfterSave(during: Step)

  function Fresh(id: nat, count: nat, disk: nat): Node {
    Node(Booted(id, count, disk), disk, None, [disk], [])
  }

  function NextPeer(m: Monitor, peer: nat): nat { if peer + 1 == m.id then peer + 2 else peer + 1 }

  predicate Enabled(n: Node, step: Step) {
    match step
    case Begin => n.election.None?
    case AskPeer(reply) =>
      n.election.Some? && n.election.value.next <= n.m.count && (reply.Some? ==> reply.value.epoch <= MAX_EPOCH)
    case Finish => n.election.Some? && n.election.value.next > n.m.count
    case Receive(msg) => msg.epoch <= MAX_EPOCH
    case Halt => true
    case Crash => true
    case CrashAfterSave(during) => !during.CrashAfterSave? && Enabled(n, during)
  }

  /** Memory and disk after a locked section: the disk follows the epoch. */
  function Saved(n: Node, m: Monitor): Node {
    n.(m := m, disk := m.epoch, stored := n.stored + [m.epoch])
  }

  function Advanced(n: Node): Node
    requires n.election.Some?
  {
    n.(election := Some(n.election.value.(next := NextPeer(n.m, n.election.value.next))))
  }

  /** The reply counts as the peer's OK. */
  predicate Confirms(reply: Option<Message>, peer: nat) {
    reply.Some? && reply.value.Okay? && reply.value.sender == peer
  }

  function Next(n: Node, step: Step): Node
    requires Enabled(n, step)
  {
    match step
    case Begin =>
      n.(m := Begun(n.m), election := Some(Election(n.m.generation + 1, NextPeer(n.m, 0), false, [], false)))
    case AskPeer(reply) =>
      var el := n.election.value;
      if !Confirms(reply, el.next) then Advanced(n)
      else
        var e := reply.value.epoch;
        var el2 := el.(higher := el.higher || el.next > n.m.id, collected := el.collected + [e]);
        Advanced(Saved(n, Raised(n.m, e)).(election := Some(el2)))
    case Finish =>
      var el := n.election.value;
      if Wins(n) then Saved(n, Crowned(n.m, el.generation)).(election := None, wins := n.wins + [n.m.epoch + 1])
      else n.(election := None)
    case Receive(msg) =>
      var accepts := msg.Coordinator? && !Ignores(n.m, msg.epoch, msg.sender);
      var after := Saved(n, Handled(n.m, msg));
      if accepts && n.election.Some? then after.(election := Some(n.election.value.(accepted := true))) else after
    case Halt => n.(m := Halted(n.m))
    case Crash => Rebooted(n)
    case CrashAfterSave(during) =>
      var after := Next(n, during);
      Rebooted(n.(disk := after.disk, stored := after.stored))
  }

  function Rebooted(n: Node): Node { n.(m := Booted(n.m.id, n.m.count, n.disk), election := None) }

  /** The election that is about to finish becomes a win. */
  predicate Wins(n: Node) {
    n.election.Some? && !n.election.value.higher && Judged(n.m, n.election.value.generation) == WON
  }

  function Reached(id: nat, count: nat, disk: nat, steps: seq<Step>): Option<Node> {
    if steps == [] then Some(Fresh(id, count, disk))
    else
      var n := Reached(id, count, disk, steps[..|steps| - 1]);
      if n.Some? && Enabled(n.value, steps[|steps| - 1]) then Some(Next(n.value, steps[|steps| - 1])) else None
  }

  /** While nothing intervened the generation is still the election's and no leader runs. */
  ghost predicate ElectionOk(m: Monitor, el: Election) {
    && el.generation <= m.generation
    && (forall i :: 0 <= i < |el.collected| ==> el.collected[i] <= m.epoch)
    && (el.accepted ==> el.generation < m.generation)
    && (!el.accepted && !m.stopped ==> el.generation == m.generation && !m.running && m.role == CANDIDATE)
  }

  ghost predicate Inv(n: Node) {
    && n.m.epoch == n.disk <= MAX_EPOCH
    && (forall i :: 0 <= i < |n.stored| ==> n.stored[i] <= n.disk)
    && (forall i :: 0 <= i < |n.wins| ==> n.wins[i] <= n.disk)
    && (forall i, j :: 0 <= i < j < |n.wins| ==> n.wins[i] < n.wins[j])
    && (n.election.Some? ==> ElectionOk(n.m, n.election.value))
    && (n.m.role == LEADER ==> n.m.running && n.m.leader == n.m.id)
  }

  lemma StepKeepsInv(n: Node, step: Step)
    requires Inv(n) && Enabled(n, step)
    ensures Inv(Next(n, step)) && Next(n, step).disk >= n.disk
    ensures forall i :: 0 <= i < |n.stored| ==> i < |Next(n, step).stored| && Next(n, step).stored[i] == n.stored[i]
  {
    match step
    case CrashAfterSave(during) => StepKeepsInv(n, during);
    case Receive(msg) => ReceiveKeepsInv(n, msg);
    case _ =>
  }

  lemma ReceiveKeepsInv(n: Node, msg: Message)
    requires Inv(n) && Enabled(n, Receive(msg))
    ensures Inv(Next(n, Receive(msg))) && Next(n, Receive(msg)).disk >= n.disk
  {
  }

  lemma {:induction false} RunKeepsInv(id: nat, count: nat, disk: nat, steps: seq<Step>)
    requires disk <= MAX_EPOCH && Reached(id, count, disk, steps).Some?
    ensures Inv(Reached(id, count, disk, steps).value)
  {
    if steps != [] {
      hide Inv, Enabled, Next;
      var init := steps[..|steps| - 1];
      RunKeepsInv(id, count, disk, init);
      StepKeepsInv(Reached(id, count, disk, init).value, steps[|steps| - 1]);
    } else {
      hide Reached;
      FreshInv(id, count, disk);
      ReachedNothing(id, count, disk);
    }
  }

  lemma ReachedNothing(id: nat, count: nat, disk: nat)
    ensures Reached(id, count, disk, []) == Some(Fresh(id, count, disk))
  {
  }

  lemma FreshInv(id: nat, count: nat, disk: nat)
    requires disk <= MAX_EPOCH
    ensures Inv(Fresh(id, count, disk))
  {
  }

  /** Over any run with messages, crashes and restarts, the epoch in memory and on disk never decreases. */
  lemma {:induction false} EpochsNeverDecrease(id: nat, count: nat, disk: nat, steps: seq<Step>, i: nat)
    requires disk <= MAX_EPOCH && i <= |steps| && Reached(id, count, disk, steps).Some?
    ensures var before, after := Reached(id, count, disk, steps[..i]), Reached(id, count, disk, steps).value;
            && before.Some? && before.value.m.epoch <= after.m.epoch
            && before.value.disk <= after.disk == after.m.epoch
  {
    RunKeepsInv(id, count, disk, steps);
    if i == |steps| {
      assert steps[..i] == steps;
    } else {
      var init := steps[..|steps| - 1];
      assert init[..i] == steps[..i];
      EpochsNeverDecrease(id, count, disk, init, i);
      RunKeepsInv(id, count, disk, init);
      StepKeepsInv(Reached(id, count, disk, init).value, steps[|steps| - 1]);
    }
  }

  // ---------- when an election is won ----------

  /** The other monitors, in the order they are asked. */
  function Others(id: nat, count: nat): seq<nat> {
    if count == 0 then [] else Others(id, count - 1) + if count == id then [] else [count]
  }

  /** The replies to the questions of the election now going on, and whether it was overruled by an announcement. */
  datatype Poll = Poll(replies: seq<Option<Message>>, overruled: bool)

  /** The announcement is not behind what the monitor knows. */
  ghost predicate Overrules(m: Monitor, msg: Message) {
    && msg.Coordinator?
    && (msg.epoch > m.epoch || (msg.epoch == m.epoch && (m.running ==> msg.sender >= m.leader)))
  }

  ghost function PollAfter(m: Monitor, before: Option<Poll>, step: Step): Option<Poll> {
    match step
    case Begin => Some(Poll([], false))
    case AskPeer(reply) =>
      if before.None? then None else Some(before.value.(replies := before.value.replies + [reply]))
    case Receive(msg) =>
      if before.Some? && Overrules(m, msg) then Some(before.value.(overruled := true)) else before
    case Halt => before
    case _ => None
  }

  /** The election now going on, read off the steps. */
  ghost function PollOf(id: nat, count: nat, disk: nat, steps: seq<Step>): Option<Poll>
    requires Reached(id, count, disk, steps).Some?
  {
    if steps == [] then None
    else
      var init, last := steps[..|steps| - 1], steps[|steps| - 1];
      PollAfter(Reached(id, count, disk, init).value.m, PollOf(id, count, disk, init), last)
  }

  /** The monitor was told to stop and has not been restarted since. */
  function StoppedBy(steps: seq<Step>): bool {
    if steps == [] then false
    else
      match steps[|steps| - 1]
      case Halt => true
      case Crash => false
      case CrashAfterSave(_) => false
      case _ => StoppedBy(steps[..|steps| - 1])
  }

  /** The k-th question goes to the k-th of the others, and it is this peer that sent its OK. */
  ghost predicate OkFrom(id: nat, count: nat, poll: Poll, k: nat) {
    && k < |poll.replies| && k < |Others(id, count)| && poll.replies[k].Some?
    && poll.replies[k].value.Okay? && poll.replies[k].value.sender == Others(id, count)[k]
  }

  ghost predicate HigherAnswered(id: nat, count: nat, poll: Poll) {
    exists k: nat :: OkFrom(id, count, poll, k) && Others(id, count)[k] > id
  }

  lemma {:induction false} OthersAt(id: nat, count: nat)
    requires id > 0
    ensures var others := Others(id, count);
            && |others| == (if id <= count then count - 1 else count)
            && forall k :: 0 <= k < |others| ==> others[k] == if k + 1 < id then k + 1 else k + 2
  {
    if count > 0 {
      OthersAt(id, count - 1);
    }
  }

  /** The election in memory is the one the steps describe. */
  ghost predicate Polls(id: nat, count: nat, n: Node, poll: Option<Poll>) {
    && n.m.id == id && n.m.count == count && (n.election.Some? <==> poll.Some?)
    && (poll.Some? ==>
          var el, asked, others := n.election.value, |poll.value.replies|, Others(id, count);
          && asked <= |others| && el.next == (if asked + 1 < id then asked + 1 else asked + 2)
          && (el.higher <==> HigherAnswered(id, count, poll.value)) && el.accepted == poll.value.overruled
          && forall k: nat :: OkFrom(id, count, poll.value, k) ==> poll.value.replies[k].value.epoch in el.collected)
  }

  lemma OkSnoc(id: nat, count: nat, poll: Poll, reply: Option<Message>)
    requires id > 0 && |poll.replies| < |Others(id, count)|
    ensures var more, peer := poll.(replies := poll.replies + [reply]), Others(id, count)[|poll.replies|];
            && (forall k: nat :: OkFrom(id, count, more, k) <==>
                  OkFrom(id, count, poll, k) || (k == |poll.replies| && Confirms(reply, peer)))
            && (HigherAnswered(id, count, more) <==>
                  HigherAnswered(id, count, poll) || (Confirms(reply, peer) && peer > id))
  {
    var more, n := poll.(replies := poll.replies + [reply]), |poll.replies|;
    assert forall k :: 0 <= k < n ==> more.replies[k] == poll.replies[k];
    assert forall k: nat :: k != n ==> (OkFrom(id, count, more, k) <==> OkFrom(id, count, poll, k));
    assert OkFrom(id, count, more, n) <==> Confirms(reply, Others(id, count)[n]);
    if HigherAnswered(id, count, poll) {
      var k: nat :| OkFrom(id, count, poll, k) && Others(id, count)[k] > id;
      assert OkFrom(id, count, more, k);
    }
  }

  lemma AskKeepsPolls(id: nat, count: nat, n: Node, poll: Poll, reply: Option<Message>)
    requires id > 0 && Polls(id, count, n, Some(poll)) && Enabled(n, AskPeer(reply))
    ensures Polls(id, count, Next(n, AskPeer(reply)), Some(poll.(replies := poll.replies + [reply])))
  {
    OthersAt(id, count);
    OkSnoc(id, count, poll, reply);
    hide OkFrom, HigherAnswered, Others;
  }

  lemma {:induction false} PollIsRead(id: nat, count: nat, disk: nat, steps: seq<Step>)
    requires id > 0 && Reached(id, count, disk, steps).Some?
    ensures var n := Reached(id, count, disk, steps).value;
            Polls(id, count, n, PollOf(id, count, disk, steps)) && n.m.stopped == StoppedBy(steps)
  {
    if steps != [] {
      var init, last := steps[..|steps| - 1], steps[|steps| - 1];
      PollIsRead(id, count, disk, init);
      var n, poll := Reached(id, count, disk, init).value, PollOf(id, count, disk, init);
      if last.AskPeer? {
        AskKeepsPolls(id, count, n, poll.value, last.reply);
      } else {
        OtherKeepsPolls(id, count, n, poll, last);
      }
    }
  }

  lemma OtherKeepsPolls(id: nat, count: nat, n: Node, poll: Option<Poll>, step: Step)
    requires id > 0 && Polls(id, count, n, poll) && Enabled(n, step) && !step.AskPeer?
    ensures Polls(id, count, Next(n, step), PollAfter(n.m, poll, step))
  {
    hide Others;
    if poll.Some? {
      var over := poll.value.(overruled := true);
      assert forall k: nat :: OkFrom(id, count, over, k) <==> OkFrom(id, count, poll.value, k);
      assert HigherAnswered(id, count, over) <==> HigherAnswered(id, count, poll.value);
    }
    if step.CrashAfterSave? { SameMonitor(n, step.during); }
  }

  lemma SameMonitor(n: Node, step: Step)
    requires Enabled(n, step)
    ensures Next(n, step).m.id == n.m.id && Next(n, step).m.count == n.m.count
  {
  }

  /** Every other monitor has been asked once. */
  lemma FinishesExactly(id: nat, count: nat, disk: nat, steps: seq<Step>)
    requires 0 < id <= count && Reached(id, count, disk, steps).Some?
    ensures var poll := PollOf(id, count, disk, steps);
            Enabled(Reached(id, count, disk, steps).value, Finish) <==>
            poll.Some? && |poll.value.replies| == |Others(id, count)|
  {
    PollIsRead(id, count, disk, steps);
    OthersAt(id, count);
  }

  /** An election ends in a win exactly when none of the higher monitors asked sent its OK, no announcement was accepted
      while it ran, the monitor was not stopped and epochs are left. The new epoch is above every epoch ever stored,
      including those of earlier lives, and above that of every OK. */
  lemma WinsExactly(id: nat, count: nat, disk: nat, steps: seq<Step>)
    requires 0 < id <= count && disk <= MAX_EPOCH && Reached(id, count, disk, steps).Some?
    requires Enabled(Reached(id, count, disk, steps).value, Finish)
    ensures PollOf(id, count, disk, steps).Some?
    ensures var n, poll := Reached(id, count, disk, steps).value, PollOf(id, count, disk, steps).value;
            var after := Next(n, Finish);
            && (|after.wins| > |n.wins| <==>
                  !HigherAnswered(id, count, poll) && !poll.overruled && !StoppedBy(steps) && n.m.epoch < MAX_EPOCH)
            && (|after.wins| > |n.wins| ==>
                  && after.m.running && after.m.leader == id && after.m.role == LEADER
                  && after.disk == after.m.epoch == after.wins[|n.wins|]
                  && (forall i :: 0 <= i < |n.stored| ==> n.stored[i] < after.m.epoch)
                  && (forall k: nat :: OkFrom(id, count, poll, k) ==> poll.replies[k].value.epoch < after.m.epoch)
                  && (forall i :: 0 <= i < |n.wins| ==> n.wins[i] < after.m.epoch))
            && (|after.wins| == |n.wins| ==> after == n.(election := None))
  {
    RunKeepsInv(id, count, disk, steps);
    PollIsRead(id, count, disk, steps);
    hide Reached, PollOf, HigherAnswered, OkFrom;
  }

  /** So a monitor never wins the same epoch twice, whatever crashes come in between. */
  lemma NoEpochWonTwice(id: nat, count: nat, disk: nat, steps: seq<Step>, i: nat, j: nat)
    requires disk <= MAX_EPOCH && Reached(id, count, disk, steps).Some?
    requires i < j < |Reached(id, count, disk, steps).value.wins|
    ensures Reached(id, count, disk, steps).value.wins[i] < Reached(id, count, disk, steps).value.wins[j]
  {
    RunKeepsInv(id, count, disk, steps);
  }

  // ---------- which epoch is won ----------

  /** The epoch a step brings to the monitor, if any: that of a message or of an OK, or that of its own win, also when
      it goes down right after saving it. */
  function Told(n: Node, step: Step): Option<nat>
    requires Enabled(n, step)
  {
    match step
    case AskPeer(reply) => if Confirms(reply, n.election.value.next) then Some(reply.value.epoch) else None
    case Receive(msg) => if msg.Okay? then None else Some(msg.epoch)
    case Finish => if Wins(n) then Some(n.m.epoch + 1) else None
    case CrashAfterSave(during) => Told(n, during)
    case _ => None
  }

  /** Everything a run brought: the epoch on disk at first, and what the steps told, in order. */
  function Heard(id: nat, count: nat, disk: nat, steps: seq<Step>): seq<nat>
    requires Reached(id, count, disk, steps).Some?
  {
    if steps == [] then [disk]
    else
      var init, last := steps[..|steps| - 1], steps[|steps| - 1];
      var told := Told(Reached(id, count, disk, init).value, last);
      if told.None? then Heard(id, count, disk, init) else Heard(id, count, disk, init) + [told.value]
  }

  function Highest(s: seq<nat>): nat {
    if s == [] then 0 else Max(Highest(s[..|s| - 1]), s[|s| - 1])
  }

  lemma {:induction false} HighestIs(s: seq<nat>)
    ensures forall i :: 0 <= i < |s| ==> s[i] <= Highest(s)
    ensures s != [] ==> exists i :: 0 <= i < |s| && s[i] == Highest(s)
  {
    if s != [] {
      var init := s[..|s| - 1];
      HighestIs(init);
      assert forall i :: 0 <= i < |init| ==> s[i] == init[i];
      if init != [] && Highest(s) == Highest(init) {
        var i :| 0 <= i < |init| && init[i] == Highest(init);
        assert s[i] == Highest(s);
      } else {
        assert s[|s| - 1] == Highest(s);
      }
    }
  }

  lemma ToldIsKept(n: Node, step: Step)
    requires Inv(n) && Enabled(n, step)
    ensures var told := Told(n, step);
            Next(n, step).disk == if told.None? then n.disk else Max(n.disk, told.value)
  {
    if step.CrashAfterSave? { ToldIsKept(n, step.during); }
  }

  /** The epoch of a monitor, in memory and on disk, is the highest it has heard of in its run, crashes included. */
  lemma {:induction false} EpochIsHighestHeard(id: nat, count: nat, disk: nat, steps: seq<Step>)
    requires disk <= MAX_EPOCH && Reached(id, count, disk, steps).Some?
    ensures var n := Reached(id, count, disk, steps).value;
            n.m.epoch == n.disk == Highest(Heard(id, count, disk, steps))
  {
    RunKeepsInv(id, count, disk, steps);
    if steps == [] {
      assert Highest([disk]) == Max(Highest([]), disk);
    } else {
      var init, last := steps[..|steps| - 1], steps[|steps| - 1];
      EpochIsHighestHeard(id, count, disk, init);
      RunKeepsInv(id, count, disk, init);
      ToldIsKept(Reached(id, count, disk, init).value, last);
      var before := Heard(id, count, disk, init);
      assert forall e :: (before + [e])[..|before|] == before;
    }
  }

  /** The epoch won is one above the highest heard: the epoch found on disk, the epochs of messages and OKs, and the
      monitor's own earlier wins, whether or not it lived to announce them. */
  lemma WonEpochIs(id: nat, count: nat, disk: nat, steps: seq<Step>)
    requires disk <= MAX_EPOCH && Reached(id, count, disk, steps).Some?
    requires Enabled(Reached(id, count, disk, steps).value, Finish) && Wins(Reached(id, count, disk, steps).value)
    ensures var after := Next(Reached(id, count, disk, steps).value, Finish);
            after.wins != [] && after.wins[|after.wins| - 1] == Highest(Heard(id, count, disk, steps)) + 1
  {
    EpochIsHighestHeard(id, count, disk, steps);
  }

  /** A monitor about to win, after its own run. */
  datatype Candidate = Candidate(id: nat, count: nat, disk: nat, steps: seq<Step>)

  ghost predicate AboutToWin(c: Candidate) {
    && c.disk <= MAX_EPOCH && Reached(c.id, c.count, c.disk, c.steps).Some?
    && var n := Reached(c.id, c.count, c.disk, c.steps).value;
       Enabled(n, Finish) && Wins(n)
  }

  ghost function WonEpoch(c: Candidate): nat
    requires AboutToWin(c)
  {
    Next(Reached(c.id, c.count, c.disk, c.steps).value, Finish).m.epoch
  }

  ghost function HeardBy(c: Candidate): seq<nat>
    requires AboutToWin(c)
  {
    Heard(c.id, c.count, c.disk, c.steps)
  }

  /** Two monitors win the same epoch exactly when the highest epochs they have heard of are equal; and a monitor that
      has heard of an epoch, for instance the other's, wins above it. */
  lemma SharedEpochExactly(a: Candidate, b: Candidate)
    requires AboutToWin(a) && AboutToWin(b)
    ensures WonEpoch(a) == WonEpoch(b) <==> Highest(HeardBy(a)) == Highest(HeardBy(b))
    ensures forall e :: e in HeardBy(a) ==> WonEpoch(a) > e
    ensures WonEpoch(b) in HeardBy(a) ==> WonEpoch(a) > WonEpoch(b)
  {
    EpochIsHighestHeard(a.id, a.count, a.disk, a.steps);
    EpochIsHighestHeard(b.id, b.count, b.disk, b.steps);
    HighestIs(HeardBy(a));
    hide Heard, Reached;
    forall e | e in HeardBy(a) ensures WonEpoch(a) > e {
      var i :| 0 <= i < |HeardBy(a)| && HeardBy(a)[i] == e;
    }
  }

  /** It does happen: of two monitors that do not reach each other, each wins epoch 1. So an epoch alone does not
      identify a leader, the pair of epoch and monitor does. */
  lemma IsolatedMonitorsShareAnEpoch()
    ensures var a, b := Candidate(1, 2, 0, [Begin, AskPeer(None)]), Candidate(2, 2, 0, [Begin, AskPeer(None)]);
            AboutToWin(a) && AboutToWin(b) && a.id != b.id && WonEpoch(a) == WonEpoch(b) == 1
  {
    LonelyRun(1);
    LonelyRun(2);
  }

  lemma LonelyRun(id: nat)
    requires id == 1 || id == 2
    ensures var c := Candidate(id, 2, 0, [Begin, AskPeer(None)]); AboutToWin(c) && WonEpoch(c) == 1
  {
    var steps, first := [Begin, AskPeer(None)], [Begin];
    assert steps[..1] == first && first[..0] == [];
    var n0 := Fresh(id, 2, 0);
    var n1 := Next(n0, Begin);
    assert Reached(id, 2, 0, []) == Some(n0);
    assert Reached(id, 2, 0, first) == Some(n1);
    assert Reached(id, 2, 0, steps) == Some(Next(n1, AskPeer(None)));
  }
}
