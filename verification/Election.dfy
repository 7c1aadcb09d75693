/** One monitor of the Bully election: its lock-scoped operations and its durable epoch. */
module Elections {
  import opened Prelude

  const MAX_EPOCH: nat := 65_535

  datatype Role = FOLLOWER | CANDIDATE | LEADER

  datatype Monitor = Monitor(id: nat, count: nat, leader: nat, epoch: nat, role: Role, generation: nat,
                             running: bool, stopped: bool)

  datatype Message =
    | ElectionCall(epoch: nat, sender: nat)
    | Okay(epoch: nat, sender: nat)
    | Coordinator(epoch: nat, sender: nat)

  datatype Verdict = CANCELLED | EXHAUSTED | WON

  function Max(a: nat, b: nat): nat { if a < b then b else a }

  function Booted(id: nat, count: nat, stored: nat): Monitor {
    Monitor(id, count, count, stored, FOLLOWER, 0, false, false)
  }

  function Begun(m: Monitor): Monitor {
    m.(generation := m.generation + 1, running := false, role := CANDIDATE)
  }

  function Raised(m: Monitor, epoch: nat): Monitor { m.(epoch := Max(m.epoch, epoch)) }

  function Judged(m: Monitor, generation: nat): Verdict {
    if m.stopped || generation != m.generation || m.running then CANCELLED
    else if m.epoch == MAX_EPOCH then EXHAUSTED
    else WON
  }

  function Crowned(m: Monitor, generation: nat): Monitor {
    if Judged(m, generation) != WON then m
    else m.(epoch := m.epoch + 1, leader := m.id, running := true, role := LEADER)
  }

  predicate Ignores(m: Monitor, epoch: nat, sender: nat) {
    epoch < m.epoch || (epoch == m.epoch && m.running && sender < m.leader)
  }

  function Coordinated(m: Monitor, epoch: nat, sender: nat): Monitor {
    if Ignores(m, epoch, sender) then m
    else m.(generation := m.generation + 1, epoch := Max(m.epoch, epoch), leader := sender,
            running := true, role := FOLLOWER)
  }

  /** Effect of a received message. */
  function Handled(m: Monitor, msg: Message): Monitor {
    match msg
    case Coordinator(e, s) => Coordinated(m, e, s)
    case ElectionCall(e, _) => Raised(m, e)
    case Okay(_, _) => m
  }

  function Halted(m: Monitor): Monitor { m.(stopped := true, generation := m.generation + 1) }

  /** The epoch file: replaced atomically, refused out of range. */
  class EpochStore {
    var saved: Option<nat>

    constructor ()
      ensures saved == None
    {
      saved := None;
    }

    function Value(): nat
      reads this
    {
      if saved.None? then 0 else saved.value
    }

    method Load() returns (r: Result<nat>)
      ensures r == if Value() <= MAX_EPOCH then Ok(Value()) else Err
    {
      match saved {
        case None => return Ok(0);
        case Some(e) => return if e <= MAX_EPOCH then Ok(e) else Err;
      }
    }

    method Save(epoch: nat) returns (ok: bool)
      modifies this
      ensures ok == (epoch <= MAX_EPOCH) && saved == if ok then Some(epoch) else old(saved)
    {
      ok := epoch <= MAX_EPOCH;
      if ok {
        saved := Some(epoch);
      }
    }
  }

  class ElectionHandler {
    const id: nat
    const count: nat
    const store: EpochStore
    var leader: nat
    var epoch: nat
    var role: Role
    var generation: nat
    var running: bool
    var stopped: bool

    function View(): Monitor
      reads this
    {
      Monitor(id, count, leader, epoch, role, generation, running, stopped)
    }

    /** What is in memory is what is on disk, and in range. */
    ghost predicate Valid()
      reads this, store
    {
      store.Value() == epoch <= MAX_EPOCH
    }

    constructor (i: nat, n: nat, s: EpochStore)
      requires s.Value() <= MAX_EPOCH
      ensures Valid() && View() == Booted(i, n, s.Value()) && store == s
    {
      id, count, store := i, n, s;
      leader, role, generation, running, stopped := n, FOLLOWER, 0, false, false;
      var stored := s.Load();
      epoch := if stored.Ok? then stored.value else 0;
    }

    /** Writes the epoch to disk before memory, and only when it changes. */
    method SetEpoch(e: nat) returns (ok: bool)
      requires Valid()
      modifies this`epoch, store
      ensures Valid()
      ensures ok == (e <= MAX_EPOCH) && View() == if ok then old(View()).(epoch := e) else old(View())
    {
      if e == epoch {
        return true;
      }
      ok := store.Save(e);
      if ok {
        epoch := e;
      }
    }

    /** First locked section of an election. */
    method BeginElection() returns (gen: nat, announced: nat)
      requires Valid()
      modifies this
      ensures Valid() && View() == Begun(old(View())) && gen == generation && announced == epoch
    {
      generation := generation + 1;
      gen := generation;
      running := false;
      role := CANDIDATE;
      announced := epoch;
    }

    /** Locked section after a peer's OK. */
    method RecordOk(e: nat) returns (ok: bool)
      requires Valid() && e <= MAX_EPOCH
      modifies this`epoch, store
      ensures Valid() && ok && View() == Raised(old(View()), e)
    {
      ok := SetEpoch(if epoch < e then e else epoch);
    }

    /** Last locked section of an election. */
    method BecomeLeader(gen: nat) returns (verdict: Verdict)
      requires Valid()
      modifies this, store
      ensures Valid() && verdict == Judged(old(View()), gen) && View() == Crowned(old(View()), gen)
    {
      if stopped || gen != generation || running {
        return CANCELLED;
      }
      if epoch == MAX_EPOCH {
        return EXHAUSTED;
      }
      var _ := SetEpoch(epoch + 1);
      leader, running, role := id, true, LEADER;
      verdict := WON;
    }

    /** Locked section for a received message: the reply and whether to start an election. */
    method HandleMessage(msg: Message) returns (reply: Option<Message>, startElection: bool)
      requires Valid() && msg.epoch <= MAX_EPOCH
      modifies this, store
      ensures Valid() && View() == Handled(old(View()), msg)
      ensures reply == if msg.ElectionCall? then Some(Okay(epoch, id)) else None
      ensures startElection <==> msg.ElectionCall? && msg.sender < id
    {
      match msg {
        case Coordinator(e, s) =>
          if e < epoch || (e == epoch && running && s < leader) {
            return None, false;
          }
          generation := generation + 1;
          var _ := SetEpoch(if epoch < e then e else epoch);
          leader, running, role := s, true, FOLLOWER;
          return None, false;
        case ElectionCall(e, s) =>
          var _ := SetEpoch(if epoch < e then e else epoch);
          return Some(Okay(epoch, id)), s < id;
        case Okay(_, _) =>
          return None, false;
      }
    }

    method Stop()
      requires Valid()
      modifies this
      ensures Valid() && View() == Halted(old(View()))
    {
      stopped := true;
      generation := generation + 1;
    }
  }

  // ---------- announcements in any order ----------

  /** Announcements as (epoch, leader) pairs, ordered by epoch and then by leader. */
  predicate AtMost(a: (nat, nat), b: (nat, nat)) { a.0 < b.0 || (a.0 == b.0 && a.1 <= b.1) }

  function Announced(m: Monitor, pairs: seq<(nat, nat)>): Monitor {
    if pairs == [] then m
    else
      var last := pairs[|pairs| - 1];
      Coordinated(Announced(m, pairs[..|pairs| - 1]), last.0, last.1)
  }

  /** What competes for leadership: the running leader, and announcements not behind the epoch known at first. */
  ghost predicate Competes(m: Monitor, pairs: seq<(nat, nat)>, p: (nat, nat)) {
    (m.running && p == (m.epoch, m.leader)) || (p in pairs && p.0 >= m.epoch)
  }

  /** Any list of announcements leaves (epoch, leader) at the maximum of what competes; if nothing competes,
      nothing changes. */
  lemma {:induction false} HighestAnnouncementWins(m: Monitor, pairs: seq<(nat, nat)>)
    ensures var r := Announced(m, pairs);
            && (r.running ==> Competes(m, pairs, (r.epoch, r.leader)))
            && (r.running ==> forall p :: Competes(m, pairs, p) ==> AtMost(p, (r.epoch, r.leader)))
            && (!r.running ==> r == m && forall p :: !Competes(m, pairs, p))
            && r.epoch >= m.epoch && (r == m || r.role == FOLLOWER)
  {
    if pairs != [] {
      var init, last := pairs[..|pairs| - 1], pairs[|pairs| - 1];
      HighestAnnouncementWins(m, init);
      assert pairs == init + [last];
      var before := Announced(m, init);
      assert forall p :: Competes(m, pairs, p) <==> Competes(m, init, p) || (p == last && last.0 >= m.epoch);
    }
  }

  /** So the order of announcements does not matter. */
  lemma AnyOrder(m: Monitor, a: seq<(nat, nat)>, b: seq<(nat, nat)>)
    requires forall p :: p in a <==> p in b
    ensures var r, s := Announced(m, a), Announced(m, b);
            r.running == s.running && r.epoch == s.epoch && r.leader == s.leader
  {
    HighestAnnouncementWins(m, a);
    HighestAnnouncementWins(m, b);
    var r, s := Announced(m, a), Announced(m, b);
    assert forall p :: Competes(m, a, p) <==> Competes(m, b, p);
    if r.running || s.running {
      assert r.running ==> Competes(m, a, (r.epoch, r.leader));
      assert s.running ==> Competes(m, b, (s.epoch, s.leader));
    }
  }

  /** While the leader runs, no announcement or election call lowers (epoch, leader), and the leader goes on. */
  lemma LeadershipOnlyRises(m: Monitor, msg: Message)
    requires m.running
    ensures var r := Handled(m, msg); r.running && AtMost((m.epoch, m.leader), (r.epoch, r.leader))
  {
  }

  function HandledAll(m: Monitor, msgs: seq<Message>): Monitor {
    if msgs == [] then m else Handled(HandledAll(m, msgs[..|msgs| - 1]), msgs[|msgs| - 1])
  }

  lemma {:induction false} LeadershipOnlyRisesOverTime(m: Monitor, msgs: seq<Message>, i: nat)
    requires m.running && i <= |msgs|
    ensures var a, r := HandledAll(m, msgs[..i]), HandledAll(m, msgs);
            r.running && AtMost((a.epoch, a.leader), (r.epoch, r.leader))
    decreases |msgs|
  {
    if i < |msgs| {
      var init := msgs[..|msgs| - 1];
      assert init[..i] == msgs[..i];
      LeadershipOnlyRisesOverTime(m, init, i);
      LeadershipOnlyRises(HandledAll(m, init), msgs[|msgs| - 1]);
    } else {
      assert msgs[..i] == msgs;
      if msgs != [] {
        var init := msgs[..|msgs| - 1];
        assert init[..|init|] == init;
        LeadershipOnlyRisesOverTime(m, init, |init|);
        LeadershipOnlyRises(HandledAll(m, init), msgs[|msgs| - 1]);
      }
    }
  }
}
