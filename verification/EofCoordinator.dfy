/** The end-of-stream coordinator of one replica, in broadcast mode. */
module EofCoordination {
  import opened Prelude

  datatype Control = Control(sender: nat, expectedTotal: nat, processedCount: nat)

  datatype MessageType = EOF_RECEIVED | PROCESSED_REQUEST | PROCESSED_ANSWER | FLUSH_ORDER | FLUSH_ACK

  datatype Message = Message(kind: MessageType, control: Control)

  /** What the worker must do once the lock is released. A retry waits before it is sent. */
  datatype Action =
    | Nothing
    | SendAnswer(leader: nat, message: Message)
    | Broadcast(message: Message, retry: bool)
    | FlushAsLeader(totalForwarded: nat)
    | FlushAsFollower(leader: nat)

  /** What the coordinator knows about one client: the announced end of stream (total, leader), the
      total this replica must reach as leader, the answers of the running round, the flush acks. */
  datatype Coord = Coord(pending: Option<(nat, nat)>, expected: Option<nat>,
                         responders: set<nat>, processed: nat, acks: set<nat>, ackForwarded: nat)

  const IDLE := Coord(None, None, {}, 0, {}, 0)

  datatype Outcome = Outcome(state: Coord, action: Action)

  function Answer(me: nat, count: nat, forwarded: nat): Message {
    Message(PROCESSED_ANSWER, Control(me, forwarded, count))
  }

  function OnUpstreamEof(me: nat, n: nat, s: Coord, total: nat, forwarded: nat): Outcome {
    if n <= 1 then Outcome(s, FlushAsLeader(forwarded))
    else Outcome(s.(expected := Some(total)), Broadcast(Message(EOF_RECEIVED, Control(me, total, 0)), false))
  }

  function OnEofReceived(me: nat, s: Coord, c: Control, count: nat, forwarded: nat): Outcome {
    if s.pending.Some? then Outcome(s, Nothing)
    else Outcome(s.(pending := Some((c.expectedTotal, c.sender))), SendAnswer(c.sender, Answer(me, count, forwarded)))
  }

  function OnProcessedRequest(me: nat, s: Coord, count: nat, forwarded: nat): Outcome {
    match s.pending
    case None => Outcome(s, Nothing)
    case Some(p) => Outcome(s, SendAnswer(p.1, Answer(me, count, forwarded)))
  }

  function OnProcessedAnswer(me: nat, n: nat, s: Coord, c: Control): Outcome {
    if c.sender in s.responders then Outcome(s, Nothing)
    else
      var t := s.(responders := s.responders + {c.sender}, processed := s.processed + c.processedCount);
      if t.expected.None? || |t.responders| < n then Outcome(t, Nothing)
      else
        var done := t.(responders := {}, processed := 0);
        if t.processed >= t.expected.value
        then Outcome(done, Broadcast(Message(FLUSH_ORDER, Control(me, 0, 0)), false))
        else Outcome(done, Broadcast(Message(PROCESSED_REQUEST, Control(me, t.expected.value, 0)), true))
  }

  function OnFlushOrder(s: Coord, c: Control): Outcome {
    Outcome(s, if s.expected.Some? then Nothing else FlushAsFollower(c.sender))
  }

  function OnFlushAck(n: nat, s: Coord, c: Control): Outcome {
    if s.expected.None? then Outcome(s, Nothing)
    else
      var t := s.(acks := s.acks + {c.sender}, ackForwarded := s.ackForwarded + c.processedCount);
      if |t.acks| < n - 1 then Outcome(t, Nothing)
      else Outcome(CleanLeader(t), FlushAsLeader(t.ackForwarded))
  }

  function OnControl(me: nat, n: nat, s: Coord, m: Message, count: nat, forwarded: nat): Outcome {
    match m.kind
    case EOF_RECEIVED => OnEofReceived(me, s, m.control, count, forwarded)
    case PROCESSED_REQUEST => OnProcessedRequest(me, s, count, forwarded)
    case PROCESSED_ANSWER => OnProcessedAnswer(me, n, s, m.control)
    case FLUSH_ORDER => OnFlushOrder(s, m.control)
    case FLUSH_ACK => OnFlushAck(n, s, m.control)
  }

  function CleanClient(s: Coord): Coord { s.(pending := None) }

  function CleanLeader(s: Coord): Coord {
    s.(pending := None, expected := None, acks := {}, ackForwarded := 0)
  }

  /** A repeated acknowledgement is not recognised: with acknowledgements still missing it changes nothing exactly
      when it reports nothing forwarded; otherwise its count is added once more. (The filter replicas do not use this
      handler: they count acknowledgements per sender in their own state.) */
  lemma RepeatedAckCountsAgain(n: nat, s: Coord, c: Control)
    requires s.expected.Some? && c.sender in s.acks && |s.acks| < n - 1
    ensures OnFlushAck(n, s, c).state == s <==> c.processedCount == 0
    ensures OnFlushAck(n, s, c).state.acks == s.acks
    ensures OnFlushAck(n, s, c).state.ackForwarded == s.ackForwarded + c.processedCount
  {
    assert s.acks + {c.sender} == s.acks;
  }

  /** The first announcement is answered, to its sender and with the count given; later ones are ignored until the
      client is cleaned up, while requests go on being answered, with the count of the moment. */
  lemma AnnouncedOnce(me: nat, s: Coord, c: Control, count: nat, later: Control, more: nat, forwarded: nat)
    requires s.pending.None?
    ensures var first := OnEofReceived(me, s, c, count, forwarded);
            && first.action == SendAnswer(c.sender, Message(PROCESSED_ANSWER, Control(me, forwarded, count)))
            && OnEofReceived(me, first.state, later, more, forwarded) == Outcome(first.state, Nothing)
            && OnProcessedRequest(me, s, more, forwarded) == Outcome(s, Nothing)
            && OnProcessedRequest(me, first.state, more, forwarded) ==
               Outcome(first.state, SendAnswer(c.sender, Message(PROCESSED_ANSWER, Control(me, forwarded, more))))
            && CleanClient(first.state) == s
  {
  }

  function AfterAcks(n: nat, s: Coord, acks: seq<Control>): Outcome {
    if acks == [] then Outcome(s, Nothing)
    else OnFlushAck(n, AfterAcks(n, s, acks[..|acks| - 1]).state, acks[|acks| - 1])
  }

  function Senders(acks: seq<Control>): set<nat> { set i | 0 <= i < |acks| :: acks[i].sender }

  function Reported(acks: seq<Control>): nat {
    if acks == [] then 0 else Reported(acks[..|acks| - 1]) + acks[|acks| - 1].processedCount
  }

  /** Acknowledgements of different replicas add up: the leader waits for all the others and then flushes with the sum
      of their counts, whatever their order, and knows nothing more of the client. */
  lemma {:induction false} AcksAddUp(n: nat, s: Coord, acks: seq<Control>)
    requires s.expected.Some? && s.acks == {} && s.ackForwarded == 0 && 0 < |acks| <= n - 1
    requires forall i, j :: 0 <= i < j < |acks| ==> acks[i].sender != acks[j].sender
    ensures |Senders(acks)| == |acks|
    ensures AfterAcks(n, s, acks) ==
            if |acks| < n - 1 then Outcome(s.(acks := Senders(acks), ackForwarded := Reported(acks)), Nothing)
            else Outcome(s.(pending := None, expected := None), FlushAsLeader(Reported(acks)))
  {
    hide Senders, OnFlushAck;
    var init, last := acks[..|acks| - 1], acks[|acks| - 1];
    assert forall i :: 0 <= i < |init| ==> init[i] == acks[i];
    SendersSnoc(acks);
    if init == [] {
      NoSenders();
    } else {
      AcksAddUp(n, s, init);
    }
    assert AfterAcks(n, s, init).state == s.(acks := Senders(init), ackForwarded := Reported(init));
    AckStep(n, s, Senders(init), Reported(init), last);
  }

  lemma AckStep(n: nat, s: Coord, acks: set<nat>, sum: nat, c: Control)
    requires s.expected.Some? && s.acks == {} && s.ackForwarded == 0 && c.sender !in acks
    ensures OnFlushAck(n, s.(acks := acks, ackForwarded := sum), c) ==
            if |acks| + 1 < n - 1
            then Outcome(s.(acks := acks + {c.sender}, ackForwarded := sum + c.processedCount), Nothing)
            else Outcome(s.(pending := None, expected := None), FlushAsLeader(sum + c.processedCount))
  {
  }

  lemma NoSenders()
    ensures Senders([]) == {}
  {
  }

  lemma SendersSnoc(acks: seq<Control>)
    requires acks != [] && forall i, j :: 0 <= i < j < |acks| ==> acks[i].sender != acks[j].sender
    ensures var init, last := acks[..|acks| - 1], acks[|acks| - 1].sender;
            Senders(acks) == Senders(init) + {last} && last !in Senders(init)
  {
    var init := acks[..|acks| - 1];
    assert forall i :: 0 <= i < |init| ==> init[i] == acks[i];
    assert forall i :: 0 <= i < |acks| ==> i < |init| || acks[i] == acks[|acks| - 1];
    forall x | x in Senders(init) ensures x in Senders(acks) {
      var i :| 0 <= i < |init| && init[i].sender == x;
      assert acks[i].sender == x;
    }
  }

  class EofCoordinator {
    const id: nat
    const total: nat
    var pendingEof: map<nat, (nat, nat)>
    var leaderExpected: map<nat, nat>
    var leaderProcessed: map<nat, nat>
    var leaderResponders: map<nat, set<nat>>
    var flushAcks: map<nat, set<nat>>
    var forwardedFromAcks: map<nat, nat>

    function View(client: nat): Coord
      reads this
    {
      Coord(if client in pendingEof then Some(pendingEof[client]) else None,
            if client in leaderExpected then Some(leaderExpected[client]) else None,
            Get(leaderResponders, client, {}), Get(leaderProcessed, client, 0),
            Get(flushAcks, client, {}), Get(forwardedFromAcks, client, 0))
    }

    constructor (me: nat, n: nat)
      ensures id == me && total == n && forall c :: View(c) == IDLE
    {
      id, total := me, n;
      pendingEof, leaderExpected, leaderProcessed := map[], map[], map[];
      leaderResponders, flushAcks, forwardedFromAcks := map[], map[], map[];
    }

    method ClearPendingEof(client: nat)
      modifies this
      ensures View(client) == CleanClient(old(View(client)))
      ensures forall c :: c != client ==> View(c) == old(View(c))
    {
      pendingEof := pendingEof - {client};
    }

    method CleanupLeaderState(client: nat)
      modifies this
      ensures View(client) == CleanLeader(old(View(client)))
      ensures forall c :: c != client ==> View(c) == old(View(c))
    {
      flushAcks := flushAcks - {client};
      forwardedFromAcks := forwardedFromAcks - {client};
      leaderExpected := leaderExpected - {client};
      pendingEof := pendingEof - {client};
    }

    method UpstreamEof(client: nat, expectedTotal: nat, forwarded: nat) returns (action: Action)
      modifies this
      ensures Outcome(View(client), action) == OnUpstreamEof(id, total, old(View(client)), expectedTotal, forwarded)
      ensures forall c :: c != client ==> View(c) == old(View(c))
    {
      if total <= 1 {
        return FlushAsLeader(forwarded);
      }
      leaderExpected := leaderExpected[client := expectedTotal];
      return Broadcast(Message(EOF_RECEIVED, Control(id, expectedTotal, 0)), false);
    }

    method ProcessControlMessage(client: nat, m: Message, count: nat, forwarded: nat) returns (action: Action)
      modifies this
      ensures Outcome(View(client), action) == OnControl(id, total, old(View(client)), m, count, forwarded)
      ensures forall c :: c != client ==> View(c) == old(View(c))
    {
      match m.kind {
        case EOF_RECEIVED => action := EofReceived(client, m.control, count, forwarded);
        case PROCESSED_REQUEST => action := ProcessedRequest(client, count, forwarded);
        case PROCESSED_ANSWER => action := ProcessedAnswer(client, m.control);
        case FLUSH_ORDER =>
          action := if client in leaderExpected then Nothing else FlushAsFollower(m.control.sender);
        case FLUSH_ACK => action := FlushAck(client, m.control);
      }
    }

    method EofReceived(client: nat, ctrl: Control, count: nat, forwarded: nat) returns (action: Action)
      modifies this
      ensures Outcome(View(client), action) == OnEofReceived(id, old(View(client)), ctrl, count, forwarded)
      ensures forall c :: c != client ==> View(c) == old(View(c))
    {
      if client in pendingEof {
        return Nothing;
      }
      pendingEof := pendingEof[client := (ctrl.expectedTotal, ctrl.sender)];
      return SendAnswer(ctrl.sender, Answer(id, count, forwarded));
    }

    method ProcessedRequest(client: nat, count: nat, forwarded: nat) returns (action: Action)
      ensures Outcome(View(client), action) == OnProcessedRequest(id, View(client), count, forwarded)
    {
      if client !in pendingEof {
        return Nothing;
      }
      return SendAnswer(pendingEof[client].1, Answer(id, count, forwarded));
    }

    method ProcessedAnswer(client: nat, ctrl: Control) returns (action: Action)
      modifies this
      ensures Outcome(View(client), action) == OnProcessedAnswer(id, total, old(View(client)), ctrl)
      ensures forall c :: c != client ==> View(c) == old(View(c))
    {
      if client !in leaderResponders {
        leaderResponders := leaderResponders[client := {}];
      }
      if ctrl.sender in leaderResponders[client] {
        return Nothing;
      }
      leaderResponders, leaderProcessed :=
        leaderResponders[client := leaderResponders[client] + {ctrl.sender}],
        leaderProcessed[client := Get(leaderProcessed, client, 0) + ctrl.processedCount];
      if client !in leaderExpected || |leaderResponders[client]| < total {
        return Nothing;
      }
      action := CloseRound(client);
    }

    /** Everybody has answered: flush, or ask again. */
    method CloseRound(client: nat) returns (action: Action)
      requires client in leaderExpected && client in leaderProcessed
      modifies this`leaderResponders, this`leaderProcessed
      ensures View(client) == old(View(client)).(responders := {}, processed := 0)
      ensures forall c :: c != client ==> View(c) == old(View(c))
      ensures action == if old(leaderProcessed[client]) >= leaderExpected[client]
                        then Broadcast(Message(FLUSH_ORDER, Control(id, 0, 0)), false)
                        else Broadcast(Message(PROCESSED_REQUEST, Control(id, leaderExpected[client], 0)), true)
    {
      if leaderProcessed[client] >= leaderExpected[client] {
        leaderResponders, leaderProcessed := leaderResponders - {client}, leaderProcessed - {client};
        return Broadcast(Message(FLUSH_ORDER, Control(id, 0, 0)), false);
      }
      leaderResponders, leaderProcessed := leaderResponders[client := {}], leaderProcessed[client := 0];
      return Broadcast(Message(PROCESSED_REQUEST, Control(id, leaderExpected[client], 0)), true);
    }

    method FlushAck(client: nat, ctrl: Control) returns (action: Action)
      modifies this
      ensures Outcome(View(client), action) == OnFlushAck(total, old(View(client)), ctrl)
      ensures forall c :: c != client ==> View(c) == old(View(c))
    {
      if client !in leaderExpected {
        return Nothing;
      }
      if client !in flushAcks {
        flushAcks := flushAcks[client := {}];
      }
      flushAcks := flushAcks[client := flushAcks[client] + {ctrl.sender}];
      forwardedFromAcks := forwardedFromAcks[client := Get(forwardedFromAcks, client, 0) + ctrl.processedCount];
      if |flushAcks[client]| < total - 1 {
        return Nothing;
      }
      var totalForwarded := forwardedFromAcks[client];
      CleanupLeaderState(client);
      return FlushAsLeader(totalForwarded);
    }
  }
}
