/** Coalescing of small payloads into batches, one buffer per key. A batch is modelled by the list
    of payloads it joins; the methods return the joined bytes. */
module BatchBuffers {
  import opened Prelude

  datatype Limits = Limits(maxBytes: int, maxItems: int)

  type Batch = seq<Bytes>

  function Size(b: Batch): nat { |Concat(b)| }

  predicate Full(lim: Limits, b: Batch) {
    |b| >= lim.maxItems || Size(b) >= lim.maxBytes
  }

  function Joined(batches: seq<Batch>): seq<Bytes> {
    seq(|batches|, i requires 0 <= i < |batches| => Concat(batches[i]))
  }

  datatype Run = Run(flushed: seq<Batch>, kept: Batch)

  /** One payload appended to a buffer. */
  function Pushed(lim: Limits, r: Run, payload: Bytes): Run {
    var b := r.kept + [payload];
    if Full(lim, b) then Run(r.flushed + [b], []) else Run(r.flushed, b)
  }

  /** Payloads appended one by one. */
  function AppendAll(lim: Limits, buf: Batch, payloads: seq<Bytes>): Run {
    if payloads == [] then Run([], buf)
    else Pushed(lim, AppendAll(lim, buf, payloads[..|payloads| - 1]), payloads[|payloads| - 1])
  }

  lemma AppendOne(lim: Limits, buf: Batch, payload: Bytes)
    ensures AppendAll(lim, buf, [payload]) == Pushed(lim, Run([], buf), payload)
  {
    assert AppendAll(lim, buf, []) == Run([], buf);
  }

  lemma ConcatEmpty()
    ensures Concat<byte>([]) == []
  {
  }

  /** So many payloads or so many bytes that the batch must go out. */
  ghost predicate AtLimit(lim: Limits, b: Batch) {
    lim.maxItems <= |b| || lim.maxBytes <= |Concat(b)|
  }

  lemma FullAtLimit(lim: Limits, b: Batch)
    ensures Full(lim, b) <==> AtLimit(lim, b)
  {
  }

  /** A batch that was flushed as soon as a limit was reached, having started from `start`. */
  ghost predicate Minimal(lim: Limits, start: nat, b: Batch) {
    && start < |b| && AtLimit(lim, b)
    && forall n :: start < n < |b| ==> !AtLimit(lim, b[..n])
  }

  /** The greedy grouping: the batches and the rest are the old buffer and the payloads in order,
      each batch ends at the first payload that reaches a limit, and the rest is below the limits. */
  ghost predicate Greedy(lim: Limits, buf: Batch, payloads: seq<Bytes>, r: Run) {
    && Concat(r.flushed) + r.kept == buf + payloads
    && (forall i :: 0 <= i < |r.flushed| ==> Minimal(lim, if i == 0 then |buf| else 0, r.flushed[i]))
    && (if r.flushed == [] then |buf| else 0) <= |r.kept|
    && forall n :: (if r.flushed == [] then |buf| else 0) < n <= |r.kept| ==> !AtLimit(lim, r.kept[..n])
  }

  lemma PushedGreedy(lim: Limits, buf: Batch, payloads: seq<Bytes>, r: Run, p: Bytes)
    requires Greedy(lim, buf, payloads, r)
    ensures Greedy(lim, buf, payloads + [p], Pushed(lim, r, p))
  {
    hide Full, AtLimit;
    var b, next := r.kept + [p], Pushed(lim, r, p);
    FullAtLimit(lim, b);
    ConcatSnoc(r.flushed, b);
    assert buf + (payloads + [p]) == (buf + payloads) + [p] == Concat(r.flushed) + b;
    assert forall n :: 0 <= n <= |r.kept| ==> b[..n] == r.kept[..n];
    if Full(lim, b) {
      assert Concat(next.flushed) + [] == Concat(r.flushed) + b;
    } else {
      assert b[..|b|] == b;
    }
  }

  /** Appending one by one groups greedily. */
  lemma {:induction false} AppendAllIsGreedy(lim: Limits, buf: Batch, payloads: seq<Bytes>)
    ensures Greedy(lim, buf, payloads, AppendAll(lim, buf, payloads))
    decreases |payloads|
  {
    if payloads == [] {
      assert Concat<Bytes>([]) + buf == buf + payloads;
    } else {
      var init := payloads[..|payloads| - 1];
      AppendAllIsGreedy(lim, buf, init);
      PushedGreedy(lim, buf, init, AppendAll(lim, buf, init), payloads[|payloads| - 1]);
      assert init + [payloads[|payloads| - 1]] == payloads;
    }
  }

  lemma {:induction false} ConcatFront<T>(parts: seq<seq<T>>)
    requires parts != []
    ensures Concat(parts) == parts[0] + Concat(parts[1..])
  {
    ConcatPlus([parts[0]], parts[1..]);
    assert [parts[0]] + parts[1..] == parts;
    ConcatSnoc<T>([], parts[0]);
    assert [] + [parts[0]] == [parts[0]] && [] + parts[0] == parts[0];
  }

  /** What remains of a greedy run after its first batch. */
  function Rest(r: Run): Run
    requires r.flushed != []
  {
    Run(r.flushed[1..], r.kept)
  }

  lemma FirstBatch(lim: Limits, buf: Batch, payloads: seq<Bytes>, r: Run)
    requires Greedy(lim, buf, payloads, r) && r.flushed != []
    ensures var b := r.flushed[0];
            |b| <= |buf + payloads| && b == (buf + payloads)[..|b|]
            && Greedy(lim, [], (buf + payloads)[|b|..], Rest(r))
  {
    hide AtLimit, Minimal, Concat;
    var b, all := r.flushed[0], buf + payloads;
    ConcatFront(r.flushed);
    assert all == b + (Concat(r.flushed[1..]) + r.kept);
    assert [] + all[|b|..] == all[|b|..];
    forall i | 0 <= i < |r.flushed| - 1
      ensures Minimal(lim, 0, r.flushed[1..][i])
    {
      assert r.flushed[1..][i] == r.flushed[i + 1];
    }
  }

  /** Two first batches of the same stream have the same length. */
  lemma FirstCut(lim: Limits, start: nat, all: seq<Bytes>, m: nat, n: nat)
    requires m <= |all| && n <= |all| && Minimal(lim, start, all[..m]) && Minimal(lim, start, all[..n])
    ensures m == n
  {
    assert forall k :: 0 <= k <= m ==> all[..m][..k] == all[..k];
    assert forall k :: 0 <= k <= n ==> all[..n][..k] == all[..k];
  }

  lemma NoFlush(lim: Limits, buf: Batch, payloads: seq<Bytes>, r: Run)
    requires Greedy(lim, buf, payloads, r) && r.flushed == []
    ensures forall n :: |buf| < n <= |buf + payloads| ==> !AtLimit(lim, (buf + payloads)[..n])
  {
    hide AtLimit;
    assert Concat<Bytes>([]) + r.kept == r.kept;
  }

  lemma FirstAgrees(lim: Limits, buf: Batch, payloads: seq<Bytes>, r: Run, s: Run)
    requires Greedy(lim, buf, payloads, r) && Greedy(lim, buf, payloads, s) && r.flushed != []
    ensures s.flushed != [] && s.flushed[0] == r.flushed[0]
  {
    hide AtLimit;
    FirstBatch(lim, buf, payloads, r);
    var all := buf + payloads;
    if s.flushed == [] {
      NoFlush(lim, buf, payloads, s);
      assert false;
    }
    FirstBatch(lim, buf, payloads, s);
    FirstCut(lim, |buf|, all, |r.flushed[0]|, |s.flushed[0]|);
  }

  /** There is only one greedy grouping. */
  lemma {:induction false} GreedyIsUnique(lim: Limits, buf: Batch, payloads: seq<Bytes>, r: Run, s: Run)
    requires Greedy(lim, buf, payloads, r) && Greedy(lim, buf, payloads, s)
    ensures r == s
    decreases |r.flushed|
  {
    if r.flushed == [] {
      if s.flushed != [] { FirstAgrees(lim, buf, payloads, s, r); }
      assert Concat(r.flushed) + r.kept == r.kept;
      assert Concat(s.flushed) + s.kept == s.kept;
    } else {
      FirstAgrees(lim, buf, payloads, r, s);
      FirstBatch(lim, buf, payloads, r);
      FirstBatch(lim, buf, payloads, s);
      GreedyIsUnique(lim, [], (buf + payloads)[|r.flushed[0]|..], Rest(r), Rest(s));
      assert r.flushed == [r.flushed[0]] + r.flushed[1..];
      assert s.flushed == [s.flushed[0]] + s.flushed[1..];
    }
  }

  /** A buffer below both limits stays below both limits, and no payload is lost, duplicated or
      reordered. */
  lemma AppendKeepsLimits(lim: Limits, buf: Batch, payloads: seq<Bytes>)
    requires buf == [] || (|buf| < lim.maxItems && |Concat(buf)| < lim.maxBytes)
    ensures var r := AppendAll(lim, buf, payloads);
            && (r.kept == [] || (|r.kept| < lim.maxItems && |Concat(r.kept)| < lim.maxBytes))
            && Concat(r.flushed) + r.kept == buf + payloads
            && forall b: Batch :: b in r.flushed ==> b != [] && (|b| >= lim.maxItems || |Concat(b)| >= lim.maxBytes)
  {
    AppendAllIsGreedy(lim, buf, payloads);
    var r := AppendAll(lim, buf, payloads);
    assert r.kept[..|r.kept|] == r.kept;
    if r.flushed == [] {
      assert Concat(r.flushed) + r.kept == r.kept;
      assert |r.kept| == |buf| ==> r.kept == buf;
    }
    forall b: Batch | b in r.flushed ensures b != [] && (|b| >= lim.maxItems || |Concat(b)| >= lim.maxBytes) {
      var i :| 0 <= i < |r.flushed| && r.flushed[i] == b;
      assert Minimal(lim, if i == 0 then |buf| else 0, b);
      assert AtLimit(lim, b);
    }
  }

  /** Appending in two goes is appending everything. */
  lemma {:induction false} AppendAllPlus(lim: Limits, buf: Batch, a: seq<Bytes>, b: seq<Bytes>)
    ensures var r, s := AppendAll(lim, buf, a), AppendAll(lim, AppendAll(lim, buf, a).kept, b);
            AppendAll(lim, buf, a + b) == Run(r.flushed + s.flushed, s.kept)
    decreases |b|
  {
    var r := AppendAll(lim, buf, a);
    if b == [] {
      assert a + b == a && r.flushed + [] == r.flushed;
    } else {
      hide Full;
      var init := b[..|b| - 1];
      AppendAllPlus(lim, buf, a, init);
      assert (a + b)[..|a + b| - 1] == a + init;
      var s := AppendAll(lim, r.kept, init);
      var full := s.kept + [b[|b| - 1]];
      assert r.flushed + (s.flushed + [full]) == (r.flushed + s.flushed) + [full];
    }
  }

  /** Contents of a batch buffer by key: non-empty, below the limits. */
  ghost predicate Sound<K>(lim: Limits, buffers: map<K, Batch>) {
    forall k :: k in buffers ==> buffers[k] != [] && !Full(lim, buffers[k])
  }

  function Stored<K>(buffers: map<K, Batch>, k: K, kept: Batch): map<K, Batch> {
    if kept == [] then Pop(buffers, k) else buffers[k := kept]
  }

  ghost function Names<K(!new)>(listed: seq<(K, Bytes)>): set<K> {
    set i | 0 <= i < |listed| :: listed[i].0
  }

  lemma NamesSnoc<K(!new)>(listed: seq<(K, Bytes)>, k: K, b: Bytes)
    ensures Names(listed + [(k, b)]) == Names(listed) + {k}
  {
    var more := listed + [(k, b)];
    assert more[|listed|].0 == k;
    forall x | x in Names(listed) + {k}
      ensures x in Names(more)
    {
      if x != k {
        var i :| 0 <= i < |listed| && listed[i].0 == x;
        assert more[i].0 == x;
      }
    }
    assert Names(more) <= Names(listed) + {k};
  }

  /** `listed` names keys of `keys`, each once, with their joined payloads. */
  ghost predicate Lists<K(!new)>(buffers: map<K, Batch>, keys: set<K>, listed: seq<(K, Bytes)>) {
    && Names(listed) == keys
    && (forall i, j :: 0 <= i < j < |listed| ==> listed[i].0 != listed[j].0)
    && forall i :: 0 <= i < |listed| ==>
         listed[i].0 in buffers && listed[i].1 == Concat(buffers[listed[i].0])
  }

  lemma ListsSnoc<K(!new)>(buffers: map<K, Batch>, keys: set<K>, listed: seq<(K, Bytes)>, k: K)
    requires Lists(buffers, keys, listed) && k in buffers && k !in keys
    ensures Lists(buffers, keys + {k}, listed + [(k, Concat(buffers[k]))])
  {
    hide Concat;
    NamesSnoc(listed, k, Concat(buffers[k]));
    forall i | 0 <= i < |listed|
      ensures listed[i].0 != k
    {
      assert listed[i].0 in Names(listed);
    }
  }

  /** The buffered keys that satisfy `p`. */
  function Matching<K>(buffers: map<K, Batch>, p: K -> bool): set<K> {
    set k | k in buffers && p(k)
  }

  function Without<K>(buffers: map<K, Batch>, p: K -> bool): map<K, Batch> {
    map k | k in buffers && !p(k) :: buffers[k]
  }

  lemma ListsNothing<K(!new)>(buffers: map<K, Batch>)
    ensures Lists(buffers, {}, [])
  {
  }

  lemma PopMinus<K, V>(m: map<K, V>, seen: set<K>, k: K)
    ensures Pop(m - seen, k) == m - (seen + {k})
  {
  }

  lemma MinusMatching<K(!new)>(buffers: map<K, Batch>, p: K -> bool)
    ensures buffers - Matching(buffers, p) == Without(buffers, p)
  {
  }

  /** Every kept buffer is non-empty, under both limits, and its byte counter is its true size. */
  ghost predicate Counted<K>(lim: Limits, buffers: map<K, Batch>, bytesByKey: map<K, nat>) {
    && bytesByKey.Keys == buffers.Keys
    && (forall k :: k in buffers ==> bytesByKey[k] == Size(buffers[k]))
    && Sound(lim, buffers)
  }

  lemma NeverEmpty<K>(lim: Limits, buffers: map<K, Batch>, bytesByKey: map<K, nat>)
    requires Counted(lim, buffers, bytesByKey)
    ensures forall k :: k in buffers ==> buffers[k] != []
  {
  }

  lemma CountedPop<K>(lim: Limits, buffers: map<K, Batch>, bytesByKey: map<K, nat>, k: K)
    requires Counted(lim, buffers, bytesByKey)
    ensures Counted(lim, Pop(buffers, k), Pop(bytesByKey, k))
  {
  }

  lemma PopPut<K, V>(m: map<K, V>, k: K, v: V)
    ensures Pop(m[k := v], k) == Pop(m, k)
  {
  }

  lemma CountedGet<K>(lim: Limits, buffers: map<K, Batch>, bytesByKey: map<K, nat>, k: K)
    requires Counted(lim, buffers, bytesByKey)
    ensures Get(bytesByKey, k, 0) == Size(Get(buffers, k, []))
  {
    ConcatEmpty();
  }

  lemma CountedPut<K>(lim: Limits, buffers: map<K, Batch>, bytesByKey: map<K, nat>, k: K, b: Batch)
    requires Counted(lim, buffers, bytesByKey) && b != [] && !Full(lim, b)
    ensures Counted(lim, buffers[k := b], bytesByKey[k := Size(b)])
  {
    hide Size, Full;
  }

  class BatchBuffer<K(==, !new)> {
    const lim: Limits
    var buffers: map<K, Batch>
    var bytesByKey: map<K, nat>

    ghost predicate Valid()
      reads this
    {
      Counted(lim, buffers, bytesByKey)
    }

    constructor (limits: Limits)
      ensures Valid() && lim == limits && buffers == map[]
    {
      lim, buffers, bytesByKey := limits, map[], map[];
    }

    /** Removes one key's buffer and returns it joined, if there was one. */
    method FlushKey(key: K) returns (batch: Option<Bytes>)
      modifies this
      ensures buffers == Pop(old(buffers), key) && bytesByKey == Pop(old(bytesByKey), key)
      ensures batch == if key in old(buffers) && old(buffers)[key] != [] then Some(Concat(old(buffers)[key])) else None
    {
      var buf := Get(buffers, key, []);
      buffers, bytesByKey := Pop(buffers, key), Pop(bytesByKey, key);
      batch := if buf == [] then None else Some(Concat(buf));
    }

    /** Buffers one payload; returns the joined batch when a limit was reached. */
    method Append(key: K, payload: Bytes) returns (batch: Option<Bytes>)
      requires Valid()
      modifies this
      ensures Valid()
      ensures var r := AppendAll(lim, Get(old(buffers), key, []), [payload]);
              buffers == Stored(old(buffers), key, r.kept)
              && batch == if r.flushed == [] then None else Some(Concat(r.flushed[0]))
    {
      ghost var start := Get(buffers, key, []);
      ConcatSnoc(start, payload);
      AppendOne(lim, start, payload);
      CountedGet(lim, buffers, bytesByKey, key);
      CountedPop(lim, buffers, bytesByKey, key);
      if !Full(lim, start + [payload]) { CountedPut(lim, buffers, bytesByKey, key, start + [payload]); }
      hide Concat, AppendAll, Counted, Pop;
      if key !in buffers {
        buffers := buffers[key := []];
      }
      buffers := buffers[key := buffers[key] + [payload]];
      assert buffers == old(buffers)[key := start + [payload]];
      var newBytes := Get(bytesByKey, key, 0) + |payload|;
      assert newBytes == Size(start + [payload]);
      bytesByKey := bytesByKey[key := newBytes];
      batch := None;
      if |buffers[key]| >= lim.maxItems || newBytes >= lim.maxBytes {
        batch := FlushKey(key);
        PopPut(old(buffers), key, start + [payload]);
        PopPut(old(bytesByKey), key, newBytes);
      }
    }

    /** The append loop on copies. */
    method SimulateAppend(buf: Batch, bufBytes: nat, payloads: seq<Bytes>)
      returns (flushed: seq<Bytes>, kept: Batch, keptBytes: nat)
      requires bufBytes == Size(buf)
      ensures var r := AppendAll(lim, buf, payloads);
              flushed == Joined(r.flushed) && kept == r.kept
      ensures keptBytes == Size(kept)
    {
      ghost var groups: seq<Batch> := [];
      flushed, kept, keptBytes := [], buf, bufBytes;
      for i := 0 to |payloads|
        invariant AppendAll(lim, buf, payloads[..i]) == Run(groups, kept)
        invariant flushed == Joined(groups) && keptBytes == Size(kept)
      {
        assert payloads[..i + 1][..i] == payloads[..i];
        ConcatSnoc(kept, payloads[i]);
        kept, keptBytes := kept + [payloads[i]], keptBytes + |payloads[i]|;
        if |kept| >= lim.maxItems || keptBytes >= lim.maxBytes {
          groups := groups + [kept];
          flushed := flushed + [Concat(kept)];
          kept, keptBytes := [], 0;
        }
      }
      assert payloads[..|payloads|] == payloads;
    }

    /** The batches an append of all payloads would flush. */
    method PlanAppend(key: K, payloads: seq<Bytes>) returns (flushed: seq<Bytes>)
      requires Valid()
      ensures flushed == Joined(AppendAll(lim, Get(buffers, key, []), payloads).flushed)
    {
      var kept, keptBytes;
      flushed, kept, keptBytes := SimulateAppend(Get(buffers, key, []), Get(bytesByKey, key, 0), payloads);
    }

    /** Appends all payloads, dropping what is flushed. */
    method ApplyAppend(key: K, payloads: seq<Bytes>)
      requires Valid()
      modifies this
      ensures Valid()
      ensures buffers == Stored(old(buffers), key, AppendAll(lim, Get(old(buffers), key, []), payloads).kept)
    {
      var flushed, kept, keptBytes :=
        SimulateAppend(Get(buffers, key, []), Get(bytesByKey, key, 0), payloads);
      AppendKeepsLimits(lim, Get(buffers, key, []), payloads);
      if kept != [] {
        buffers, bytesByKey := buffers[key := kept], bytesByKey[key := keptBytes];
      } else {
        buffers, bytesByKey := Pop(buffers, key), Pop(bytesByKey, key);
      }
    }

    /** The batches a drain would emit. */
    method PlanDrain(p: K -> bool) returns (out: seq<(K, Bytes)>)
      requires Valid()
      ensures Lists(buffers, Matching(buffers, p), out)
    {
      hide Concat, Full, Lists, Counted;
      out := [];
      ListsNothing(buffers);
      NeverEmpty(lim, buffers, bytesByKey);
      ghost var seen: set<K> := {};
      var left := buffers.Keys;
      while left != {}
        invariant left <= buffers.Keys
        invariant seen == Matching(buffers, p) - left
        invariant Lists(buffers, seen, out)
        decreases |left|
      {
        var k :| k in left;
        left := left - {k};
        if p(k) && buffers[k] != [] {
          ListsSnoc(buffers, seen, out, k);
          out := out + [(k, Concat(buffers[k]))];
          seen := seen + {k};
        }
      }
      assert Matching(buffers, p) - left == Matching(buffers, p);
    }

    /** Empties the matching buffers and returns their joined payloads. */
    method Flush(p: K -> bool) returns (out: seq<(K, Bytes)>)
      requires Valid()
      modifies this
      ensures Valid() && buffers == Without(old(buffers), p)
      ensures Lists(old(buffers), Matching(old(buffers), p), out)
    {
      out := [];
      assert Lists(buffers, {}, out);
      assert forall k :: k in buffers ==> buffers[k] != [];
      MinusMatching(buffers, p);
      ghost var all := buffers;
      var left := set k | k in buffers && p(k);
      ghost var matching := left;
      assert matching - left == {} && all - {} == all;
      assert matching == Matching(all, p) && matching <= all.Keys;
      hide Counted, Matching, Without, Pop, Lists, Concat;
      while left != {}
        invariant Valid()
        invariant left <= matching && buffers == all - (matching - left)
        invariant left <= buffers.Keys && forall k :: k in left ==> buffers[k] == all[k]
        invariant Lists(all, matching - left, out)
        decreases |left|
      {
        var k :| k in left;
        ListsSnoc(all, matching - left, out, k);
        PopMinus(all, matching - left, k);
        assert matching - (left - {k}) == (matching - left) + {k};
        CountedPop(lim, buffers, bytesByKey, k);
        var batch := FlushKey(k);
        assert batch == Some(Concat(all[k]));
        if batch.Some? {
          out := out + [(k, batch.value)];
        }
        left := left - {k};
      }
      assert matching - left == matching;
    }

    /** Drops the matching buffers. */
    method Discard(p: K -> bool)
      requires Valid()
      modifies this
      ensures Valid() && buffers == Without(old(buffers), p)
    {
      MinusMatching(buffers, p);
      ghost var all := buffers;
      var left := set k | k in buffers && p(k);
      ghost var seen, matching := {}, left;
      assert matching == Matching(all, p);
      hide Counted, Matching, Without, Pop;
      while left != {}
        invariant Valid()
        invariant seen + left == matching
        invariant buffers == all - seen
        decreases |left|
      {
        var k :| k in left;
        left := left - {k};
        PopMinus(all, seen, k);
        CountedPop(lim, buffers, bytesByKey, k);
        seen := seen + {k};
        buffers, bytesByKey := Pop(buffers, k), Pop(bytesByKey, k);
      }
    }
  }
}
