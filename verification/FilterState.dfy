/** Durable state of a filter replica: per-client counters, the output batcher and the coordinator. */
module FilterStates {
  import opened Prelude
  import opened BatchBuffers
  import opened EofCoordination

  type Counts = map<string, nat>

  type Appends = map<string, seq<Bytes>>

  /** The replica's place in the group and its batch limits. */
  datatype Site = Site(me: nat, n: nat, lim: Limits)

  datatype Change =
    | Data(client: nat, processed: nat, appends: Appends, forwarded: Counts)
    | FlushAckFrom(client: nat, sender: nat, forwarded: Counts)
    | Close(client: nat)
    | UpstreamEof(client: nat, expectedTotal: nat, forwardedNow: nat)
    | ControlMessage(client: nat, message: Message, count: nat, forwardedNow: nat)
    | Cleanup(client: nat, isLeader: bool)
    | Compound(changes: seq<Change>)

  /** Everything the replica holds about one client. */
  datatype FilterView = FilterView(processed: nat, forwarded: Counts, closed: bool,
                                   allForwarded: Counts, acks: set<nat>,
                                   buffer: map<string, Batch>, coord: Coord)

  const UNKNOWN := FilterView(0, map[], false, map[], {}, map[], IDLE)

  function Sum(a: Counts, b: Counts): (c: Counts)
    ensures forall o :: Get(c, o, 0) == Get(a, o, 0) + Get(b, o, 0)
  {
    map o | o in a.Keys + b.Keys :: Get(a, o, 0) + Get(b, o, 0)
  }

  /** What a destination's buffer keeps once the appends are in. */
  function Kept(lim: Limits, buffer: map<string, Batch>, appends: Appends, dest: string): Batch {
    if dest in appends then AppendAll(lim, Get(buffer, dest, []), appends[dest]).kept
    else Get(buffer, dest, [])
  }

  function Appended(lim: Limits, buffer: map<string, Batch>, appends: Appends): map<string, Batch> {
    map d | d in buffer.Keys + appends.Keys && Kept(lim, buffer, appends, d) != [] ::
      Kept(lim, buffer, appends, d)
  }

  function AppliedData(lim: Limits, v: FilterView, processed: nat, appends: Appends, forwarded: Counts): FilterView {
    if v.closed then v
    else v.(processed := v.processed + processed, buffer := Appended(lim, v.buffer, appends),
            forwarded := Sum(v.forwarded, forwarded))
  }

  function AppliedFlushAck(v: FilterView, sender: nat, forwarded: Counts): FilterView {
    if sender in v.acks then v
    else v.(acks := v.acks + {sender}, allForwarded := Sum(v.allForwarded, forwarded))
  }

  function Closed(v: FilterView): FilterView {
    FilterView(0, map[], true, map[], {}, map[], v.coord)
  }

  /** Effect of a change on one client. */
  function Applied(s: Site, v: FilterView, client: nat, change: Change): FilterView
    decreases change, if change.Compound? then |change.changes| + 1 else 0
  {
    if change.Compound? then AppliedFirst(s, v, client, change, |change.changes|)
    else if change.client != client then v
    else match change
      case Data(_, processed, appends, forwarded) => AppliedData(s.lim, v, processed, appends, forwarded)
      case FlushAckFrom(_, sender, forwarded) => AppliedFlushAck(v, sender, forwarded)
      case Close(_) => Closed(v)
      case UpstreamEof(_, total, forwarded) =>
        v.(coord := OnUpstreamEof(s.me, s.n, v.coord, total, forwarded).state)
      case ControlMessage(_, m, count, forwarded) =>
        v.(coord := OnControl(s.me, s.n, v.coord, m, count, forwarded).state)
      case Cleanup(_, isLeader) =>
        v.(coord := if isLeader then CleanLeader(v.coord) else CleanClient(v.coord))
  }

  /** The first `k` parts of a compound change. */
  function AppliedFirst(s: Site, v: FilterView, client: nat, change: Change, k: nat): FilterView
    requires change.Compound? && k <= |change.changes|
    decreases change, k
  {
    if k == 0 then v
    else Applied(s, AppliedFirst(s, v, client, change, k - 1), client, change.changes[k - 1])
  }

  lemma AppliedTwo(s: Site, v: FilterView, client: nat, a: Change, b: Change)
    ensures Applied(s, v, client, Compound([a, b])) == Applied(s, Applied(s, v, client, a), client, b)
  {
    var c := Compound([a, b]);
    assert AppliedFirst(s, v, client, c, 2) == Applied(s, AppliedFirst(s, v, client, c, 1), client, b);
    assert AppliedFirst(s, v, client, c, 1) == Applied(s, AppliedFirst(s, v, client, c, 0), client, a);
  }

  lemma AppliedThree(s: Site, v: FilterView, client: nat, a: Change, b: Change, d: Change)
    ensures Applied(s, v, client, Compound([a, b, d])) ==
            Applied(s, Applied(s, Applied(s, v, client, a), client, b), client, d)
  {
    var c := Compound([a, b, d]);
    assert AppliedFirst(s, v, client, c, 3) == Applied(s, AppliedFirst(s, v, client, c, 2), client, d);
    assert AppliedFirst(s, v, client, c, 2) == Applied(s, AppliedFirst(s, v, client, c, 1), client, b);
    assert AppliedFirst(s, v, client, c, 1) == Applied(s, AppliedFirst(s, v, client, c, 0), client, a);
  }

  /** One client's part of the shared buffer. */
  function Slice(buffers: map<(string, nat), Batch>, client: nat): map<string, Batch> {
    map k | k in buffers && k.1 == client :: k.0 := buffers[k]
  }

  lemma SliceGet(buffers: map<(string, nat), Batch>, dest: string, client: nat)
    ensures Get(buffers, (dest, client), []) == Get(Slice(buffers, client), dest, [])
  {
  }

  lemma SliceStored(buffers: map<(string, nat), Batch>, dest: string, client: nat, kept: Batch, c: nat)
    ensures Slice(Stored(buffers, (dest, client), kept), c) ==
            if c == client then Stored(Slice(buffers, c), dest, kept) else Slice(buffers, c)
  {
    var l := Slice(Stored(buffers, (dest, client), kept), c);
    var r := if c == client then Stored(Slice(buffers, c), dest, kept) else Slice(buffers, c);
    forall d
      ensures d in l <==> d in r
      ensures d in l ==> l[d] == r[d]
    {
      assert d in l <==> (d, c) in Stored(buffers, (dest, client), kept);
      assert d in Slice(buffers, c) <==> (d, c) in buffers;
    }
  }

  /** The entries of a dictionary already visited by a loop over it. */
  ghost function Only<K, V>(m: map<K, V>, done: set<K>): map<K, V> {
    map k | k in m && k in done :: m[k]
  }

  lemma OnlyAll<K, V>(m: map<K, V>)
    ensures Only(m, m.Keys) == m && Only(m, {}) == map[]
  {
  }

  lemma SumStep(acc: Counts, counts: Counts, done: set<string>, o: string)
    requires o in counts && o !in done
    ensures var part := Sum(acc, Only(counts, done));
            Sum(acc, Only(counts, done + {o})) == part[o := Get(part, o, 0) + counts[o]]
  {
    var part, next := Sum(acc, Only(counts, done)), Sum(acc, Only(counts, done + {o}));
    forall x | x in next
      ensures next[x] == part[o := Get(part, o, 0) + counts[o]][x]
    {
      assert Get(next, x, 0) == Get(acc, x, 0) + Get(Only(counts, done + {o}), x, 0);
    }
  }

  lemma SumNothing(acc: Counts)
    ensures Sum(acc, map[]) == acc
  {
  }

  method AddInto(acc: Counts, counts: Counts) returns (sum: Counts)
    ensures sum == Sum(acc, counts)
  {
    hide Sum, Only;
    SumNothing(acc);
    OnlyAll(counts);
    sum := acc;
    ghost var done: set<string> := {};
    var left := counts.Keys;
    while left != {}
      invariant left <= counts.Keys && done == counts.Keys - left
      invariant sum == Sum(acc, Only(counts, done))
      decreases |left|
    {
      var o :| o in left;
      SumStep(acc, counts, done, o);
      left, done := left - {o}, done + {o};
      sum := sum[o := Get(sum, o, 0) + counts[o]];
    }
    assert done == counts.Keys;
  }

  /** No buffer is stored empty. */
  ghost predicate Filled<K>(buffer: map<K, Batch>) {
    forall d :: d in buffer ==> buffer[d] != []
  }

  lemma FilledEqual<K(!new)>(a: map<K, Batch>, b: map<K, Batch>)
    requires Filled(a) && Filled(b) && forall d :: Get(a, d, []) == Get(b, d, [])
    ensures a == b
  {
    forall d
      ensures d in a <==> d in b
      ensures d in a ==> a[d] == b[d]
    {
      assert Get(a, d, []) == Get(b, d, []);
    }
  }

  lemma AppendedAt(lim: Limits, buffer: map<string, Batch>, appends: Appends, d: string)
    requires Filled(buffer)
    ensures Filled(Appended(lim, buffer, appends))
    ensures Get(Appended(lim, buffer, appends), d, []) == Kept(lim, buffer, appends, d)
  {
    hide AppendAll;
  }

  lemma AppendedStep(lim: Limits, buffer: map<string, Batch>, appends: Appends, done: set<string>, d: string)
    requires d in appends && d !in done && Filled(buffer)
    ensures var part := Appended(lim, buffer, Only(appends, done));
            && Get(part, d, []) == Get(buffer, d, [])
            && Appended(lim, buffer, Only(appends, done + {d})) ==
               Stored(part, d, AppendAll(lim, Get(buffer, d, []), appends[d]).kept)
  {
    hide AppendAll, Appended;
    var was, now := Only(appends, done), Only(appends, done + {d});
    var kept := AppendAll(lim, Get(buffer, d, []), appends[d]).kept;
    var part, next := Appended(lim, buffer, was), Appended(lim, buffer, now);
    AppendedAt(lim, buffer, was, d);
    AppendedAt(lim, buffer, now, d);
    forall x
      ensures Get(next, x, []) == Get(Stored(part, d, kept), x, [])
    {
      AppendedAt(lim, buffer, was, x);
      AppendedAt(lim, buffer, now, x);
      assert x in now <==> x in was || x == d;
    }
    FilledEqual(next, Stored(part, d, kept));
  }

  lemma SliceFilled(lim: Limits, buffers: map<(string, nat), Batch>, bytesByKey: map<(string, nat), nat>, client: nat)
    requires Counted(lim, buffers, bytesByKey)
    ensures Filled(Slice(buffers, client))
  {
  }

  lemma AppendedNothing(lim: Limits, buffer: map<string, Batch>)
    requires Filled(buffer)
    ensures Appended(lim, buffer, map[]) == buffer
  {
  }

  /** A drain of one client lists that client's buffers. */
  lemma DrainedSlice(buffers: map<(string, nat), Batch>, client: nat, listed: seq<((string, nat), Bytes)>)
    requires Lists(buffers, Matching(buffers, (k: (string, nat)) => k.1 == client), listed)
    ensures forall i :: 0 <= i < |listed| ==>
              listed[i].0.0 in Slice(buffers, client) && listed[i].1 == Concat(Slice(buffers, client)[listed[i].0.0])
    ensures forall d :: d in Slice(buffers, client) ==> exists i :: 0 <= i < |listed| && listed[i].0.0 == d
  {
    hide Concat;
    forall i | 0 <= i < |listed|
      ensures listed[i].0.0 in Slice(buffers, client) && listed[i].1 == Concat(Slice(buffers, client)[listed[i].0.0])
    {
      assert listed[i].0 in Names(listed);
    }
    forall d | d in Slice(buffers, client)
      ensures exists i :: 0 <= i < |listed| && listed[i].0.0 == d
    {
      assert (d, client) in Names(listed);
      var i :| 0 <= i < |listed| && listed[i].0 == (d, client);
      assert listed[i].0.0 == d;
    }
  }

  lemma SliceWithout(buffers: map<(string, nat), Batch>, client: nat, c: nat)
    ensures Slice(Without(buffers, (k: (string, nat)) => k.1 == client), c) ==
            if c == client then map[] else Slice(buffers, c)
  {
  }

  class FilterState {
    const site: Site
    const coordinator: EofCoordinator
    const buffer: BatchBuffer<(string, nat)>
    var processedByClient: map<nat, nat>
    var forwardedByOutput: map<nat, Counts>
    var closedClients: set<nat>
    var allForwardedByOutput: map<nat, Counts>
    var flushedAcks: map<nat, set<nat>>

    ghost predicate Valid()
      reads this, coordinator, buffer
    {
      && coordinator.id == site.me && coordinator.total == site.n && buffer.lim == site.lim
      && buffer.Valid()
    }

    function View(client: nat): FilterView
      reads this, coordinator, buffer
    {
      FilterView(Get(processedByClient, client, 0), Get(forwardedByOutput, client, map[]),
                 client in closedClients, Get(allForwardedByOutput, client, map[]),
                 Get(flushedAcks, client, {}), Slice(buffer.buffers, client), coordinator.View(client))
    }

    constructor (s: Site)
      ensures Valid() && site == s && fresh(coordinator) && fresh(buffer)
      ensures forall c :: View(c) == UNKNOWN
    {
      site := s;
      coordinator := new EofCoordinator(s.me, s.n);
      buffer := new BatchBuffer(s.lim);
      processedByClient, forwardedByOutput, closedClients := map[], map[], {};
      allForwardedByOutput, flushedAcks := map[], map[];
    }

    /** The batches per destination that the appends would flush. */
    method PlanData(client: nat, appends: Appends) returns (flushed: map<string, seq<Bytes>>)
      requires Valid()
      ensures flushed.Keys == appends.Keys
      ensures forall d :: d in appends ==>
                flushed[d] == Joined(AppendAll(site.lim, Get(View(client).buffer, d, []), appends[d]).flushed)
    {
      hide AppendAll, Counted, Joined;
      flushed := map[];
      var left := appends.Keys;
      while left != {}
        invariant left <= appends.Keys && flushed.Keys == appends.Keys - left
        invariant forall d :: d in flushed ==>
                    flushed[d] == Joined(AppendAll(site.lim, Get(View(client).buffer, d, []), appends[d]).flushed)
        decreases |left|
      {
        var d :| d in left;
        left := left - {d};
        var batches := buffer.PlanAppend((d, client), appends[d]);
        assert Get(buffer.buffers, (d, client), []) == Get(View(client).buffer, d, []);
        flushed := flushed[d := batches];
      }
    }

    /** Each destination's leftover batch. */
    method PlanDrain(client: nat) returns (drained: map<string, Bytes>)
      requires Valid()
      ensures drained.Keys == View(client).buffer.Keys
      ensures forall d :: d in drained ==> drained[d] == Concat(View(client).buffer[d])
    {
      hide Counted, Concat, Slice, Lists, Matching;
      var listed := buffer.PlanDrain((k: (string, nat)) => k.1 == client);
      DrainedSlice(buffer.buffers, client, listed);
      drained := map[];
      for i := 0 to |listed|
        invariant forall j :: 0 <= j < i ==> listed[j].0.0 in drained
        invariant forall d :: d in drained ==>
                    d in Slice(buffer.buffers, client) && drained[d] == Concat(Slice(buffer.buffers, client)[d])
      {
        drained := drained[listed[i].0.0 := listed[i].1];
      }
      assert drained.Keys == Slice(buffer.buffers, client).Keys;
    }

    method AppendTo(client: nat, dest: string, payloads: seq<Bytes>)
      requires Valid()
      modifies buffer
      ensures Valid()
      ensures var was := old(Slice(buffer.buffers, client));
              Slice(buffer.buffers, client) ==
              Stored(was, dest, AppendAll(site.lim, Get(was, dest, []), payloads).kept)
      ensures forall c :: c != client ==> Slice(buffer.buffers, c) == old(Slice(buffer.buffers, c))
    {
      hide AppendAll, Counted, Slice, Stored;
      ghost var was := buffer.buffers;
      SliceGet(was, dest, client);
      buffer.ApplyAppend((dest, client), payloads);
      forall c {
        SliceStored(was, dest, client, AppendAll(site.lim, Get(was, (dest, client), []), payloads).kept, c);
      }
    }

    /** Appends every destination's payloads to the shared buffer. */
    method AppendEach(client: nat, appends: Appends)
      requires Valid()
      modifies buffer
      ensures Valid()
      ensures Slice(buffer.buffers, client) == Appended(site.lim, old(Slice(buffer.buffers, client)), appends)
      ensures forall c :: c != client ==> Slice(buffer.buffers, c) == old(Slice(buffer.buffers, c))
    {
      hide AppendAll, Counted, Appended, Only, Filled, Slice, Stored, Get, Kept, Full, Concat;
      ghost var before := Slice(buffer.buffers, client);
      SliceFilled(buffer.lim, buffer.buffers, buffer.bytesByKey, client);
      AppendedNothing(site.lim, before);
      OnlyAll(appends);
      var left := appends.Keys;
      assert appends.Keys - left == {};
      while left != {}
        invariant left <= appends.Keys && Valid()
        invariant Slice(buffer.buffers, client) == Appended(site.lim, before, Only(appends, appends.Keys - left))
        invariant forall c :: c != client ==> Slice(buffer.buffers, c) == old(Slice(buffer.buffers, c))
        decreases |left|
      {
        var d :| d in left;
        AppendedStep(site.lim, before, appends, appends.Keys - left, d);
        AppendTo(client, d, appends[d]);
        assert appends.Keys - (left - {d}) == (appends.Keys - left) + {d};
        left := left - {d};
      }
      assert appends.Keys - left == appends.Keys;
    }

    method ApplyData(client: nat, processed: nat, appends: Appends, forwarded: Counts)
      requires Valid()
      modifies this, buffer
      ensures Valid()
      ensures View(client) == AppliedData(site.lim, old(View(client)), processed, appends, forwarded)
      ensures forall c :: c != client ==> View(c) == old(View(c))
    {
      hide Appended, Sum, Slice;
      if client in closedClients {
        return;
      }
      processedByClient := processedByClient[client := Get(processedByClient, client, 0) + processed];
      AppendEach(client, appends);
      var acc := AddInto(Get(forwardedByOutput, client, map[]), forwarded);
      forwardedByOutput := forwardedByOutput[client := acc];
    }

    method ApplyFlushAck(client: nat, sender: nat, forwarded: Counts)
      requires Valid()
      modifies this
      ensures Valid()
      ensures View(client) == AppliedFlushAck(old(View(client)), sender, forwarded)
      ensures forall c :: c != client ==> View(c) == old(View(c))
    {
      hide Counted, Slice, Sum;
      var acks := Get(flushedAcks, client, {});
      if sender in acks {
        return;
      }
      flushedAcks := flushedAcks[client := acks + {sender}];
      var agg := AddInto(Get(allForwardedByOutput, client, map[]), forwarded);
      allForwardedByOutput := allForwardedByOutput[client := agg];
    }

    method ApplyClose(client: nat)
      requires Valid()
      modifies this, buffer
      ensures Valid()
      ensures View(client) == Closed(old(View(client)))
      ensures forall c :: c != client ==> View(c) == old(View(c))
    {
      hide Counted, Slice, Without;
      ghost var was := buffer.buffers;
      processedByClient := processedByClient - {client};
      forwardedByOutput := forwardedByOutput - {client};
      allForwardedByOutput := allForwardedByOutput - {client};
      flushedAcks := flushedAcks - {client};
      buffer.Discard((k: (string, nat)) => k.1 == client);
      closedClients := closedClients + {client};
      forall c ensures Slice(buffer.buffers, c) == if c == client then map[] else Slice(was, c) {
        SliceWithout(was, client, c);
      }
    }

    /** The single mutation path, live and on replay. */
    method ApplyChange(change: Change)
      requires Valid()
      modifies this, coordinator, buffer
      ensures Valid()
      ensures forall c :: View(c) == Applied(site, old(View(c)), c, change)
      decreases change
    {
      match change {
        case Compound(changes) =>
          for i := 0 to |changes|
            invariant Valid()
            invariant forall c :: View(c) == AppliedFirst(site, old(View(c)), c, change, i)
          {
            ApplyChange(changes[i]);
          }
        case Data(client, processed, appends, forwarded) => ApplyData(client, processed, appends, forwarded);
        case FlushAckFrom(client, sender, forwarded) => ApplyFlushAck(client, sender, forwarded);
        case Close(client) => ApplyClose(client);
        case UpstreamEof(client, total, forwarded) =>
          var _ := coordinator.UpstreamEof(client, total, forwarded);
        case ControlMessage(client, m, count, forwarded) =>
          var _ := coordinator.ProcessControlMessage(client, m, count, forwarded);
        case Cleanup(client, isLeader) =>
          if isLeader {
            coordinator.CleanupLeaderState(client);
          } else {
            coordinator.ClearPendingEof(client);
          }
      }
    }
  }
}
