/** Delivery of a file's chunks with redeliveries: offsets and ordinals decide what is new. */
module FileDelivery {
  import opened Prelude
  import opened FileSplitting

  /** One file at the splitter: its state once a chunk has come, and the ordinals its inbox has applied. */
  datatype Node = Node(run: Option<FileRun>, ordinals: seq<nat>)

  const UNSEEN := Node(None, [])

  function Expected(n: Node): nat { if n.run.None? then 0 else n.run.value.file.splitter.offset }

  function NextOrdinal(n: Node): nat { if n.run.None? then 0 else n.run.value.file.chunks }

  /** The ordinal a chunk is handled under, or `None` when it is only acknowledged. */
  function OrdinalFor(n: Node, offset: nat, size: nat): Option<int> {
    if offset == Expected(n) then Some(NextOrdinal(n))
    else if offset + size == Expected(n) then Some(NextOrdinal(n) - 1)
    else None
  }

  /** One delivery. An ordinal already applied is published again without touching the state. */
  function Dispatched(cfg: Config, key: FileKey, fileType: nat, counts: map<nat, nat>, n: Node, offset: nat,
                      payload: Bytes): Result<Node> {
    var ordinal := OrdinalFor(n, offset, |payload|);
    if ordinal.None? || ordinal.value in n.ordinals then Ok(n)
    else
      var file := if n.run.None? then FileRun(NewFile(cfg), counts, []) else n.run.value;
      var r := Chunked(cfg, key, file, fileType, offset, payload);
      if r.Err? || ordinal.value < 0 then Err else Ok(Node(Some(r.value), n.ordinals + [ordinal.value]))
  }

  function OffsetOf(chunks: seq<Bytes>, j: nat): nat
    requires j <= |chunks|
  {
    |Concat(chunks[..j])|
  }

  /** Chunks seen so far, when none is skipped. */
  function High(order: seq<nat>): nat {
    if order == [] then 0
    else
      var before := High(order[..|order| - 1]);
      if order[|order| - 1] == before then before + 1 else before
  }

  /** Each delivery is the next chunk or one that came before. */
  ghost predicate InOrder(order: seq<nat>, n: nat) {
    forall i :: 0 <= i < |order| ==> order[i] <= High(order[..i]) && order[i] < n
  }

  function Delivered(cfg: Config, key: FileKey, fileType: nat, counts: map<nat, nat>, chunks: seq<Bytes>,
                     order: seq<nat>): Result<Node>
    requires forall i :: 0 <= i < |order| ==> order[i] < |chunks|
  {
    if order == [] then Ok(UNSEEN)
    else
      var j := order[|order| - 1];
      var before := Delivered(cfg, key, fileType, counts, chunks, order[..|order| - 1]);
      if before.Err? then Err else Dispatched(cfg, key, fileType, counts, before.value, OffsetOf(chunks, j), chunks[j])
  }

  function UpTo(n: nat): (s: seq<nat>)
    ensures |s| == n && forall x :: x in s <==> 0 <= x < n
  {
    if n == 0 then [] else UpTo(n - 1) + [n - 1]
  }

  /** The node holds the file whose chunks `xs` came once each, in order. */
  ghost predicate Holding(cfg: Config, key: FileKey, fileType: nat, counts: map<nat, nat>, xs: seq<Bytes>,
                          n: Result<Node>) {
    if xs == [] then n == Ok(UNSEEN)
    else
      var r := RunChunks(cfg, key, fileType, counts, xs);
      n == if r.Err? then Err else Ok(Node(Some(r.value), UpTo(|xs|)))
  }

  lemma HoldingIntake(cfg: Config, key: FileKey, fileType: nat, counts: map<nat, nat>, xs: seq<Bytes>, n: Node)
    requires Holding(cfg, key, fileType, counts, xs, Ok(n))
    ensures Expected(n) == |Concat(xs)| && NextOrdinal(n) == |xs| && n.ordinals == UpTo(|xs|)
  {
    if xs != [] {
      ChunksAmount(cfg, key, fileType, counts, xs);
    }
  }

  /** A chunk at the expected offset is taken. */
  lemma TakesNext(cfg: Config, key: FileKey, fileType: nat, counts: map<nat, nat>, xs: seq<Bytes>, n: Node,
                  payload: Bytes)
    requires Holding(cfg, key, fileType, counts, xs, Ok(n))
    ensures Holding(cfg, key, fileType, counts, xs + [payload],
                    Dispatched(cfg, key, fileType, counts, n, |Concat(xs)|, payload))
  {
    hide Chunked;
    HoldingIntake(cfg, key, fileType, counts, xs, n);
    assert (xs + [payload])[..|xs|] == xs;
    assert xs == [] ==> RunChunks(cfg, key, fileType, counts, xs) == Ok(FileRun(NewFile(cfg), counts, []));
    assert UpTo(|xs|) + [|xs|] == UpTo(|xs| + 1);
  }

  /** A chunk that ends at or before the expected offset, and is not empty there, changes nothing. */
  lemma SkipsOld(cfg: Config, key: FileKey, fileType: nat, counts: map<nat, nat>, xs: seq<Bytes>, n: Node,
                 offset: nat, payload: Bytes)
    requires Holding(cfg, key, fileType, counts, xs, Ok(n))
    requires offset + |payload| <= |Concat(xs)| && offset < |Concat(xs)|
    ensures Dispatched(cfg, key, fileType, counts, n, offset, payload) == Ok(n)
  {
    hide Chunked, RunChunks;
    HoldingIntake(cfg, key, fileType, counts, xs, n);
  }

  lemma OffsetStep(chunks: seq<Bytes>, j: nat)
    requires j < |chunks|
    ensures OffsetOf(chunks, j + 1) == OffsetOf(chunks, j) + |chunks[j]|
    ensures Concat(chunks[..j + 1]) == Concat(chunks[..j]) + chunks[j]
  {
    assert chunks[..j + 1] == chunks[..j] + [chunks[j]];
    ConcatSnoc(chunks[..j], chunks[j]);
  }

  lemma {:induction false} OffsetGrows(chunks: seq<Bytes>, j: nat, k: nat)
    requires j <= k <= |chunks|
    ensures OffsetOf(chunks, j) <= OffsetOf(chunks, k)
  {
    if j < k {
      OffsetGrows(chunks, j, k - 1);
      OffsetStep(chunks, k - 1);
    }
  }

  lemma HighBelow(order: seq<nat>, n: nat)
    requires InOrder(order, n)
    ensures High(order) <= n
  {
    if order != [] {
      var init := order[..|order| - 1];
      assert forall i :: 0 <= i < |init| ==> init[i] == order[i] && init[..i] == order[..i];
      HighBelow(init, n);
    }
  }

  lemma FailsOn(cfg: Config, key: FileKey, fileType: nat, counts: map<nat, nat>, xs: seq<Bytes>, payload: Bytes)
    requires Holding(cfg, key, fileType, counts, xs, Err)
    ensures Holding(cfg, key, fileType, counts, xs + [payload], Err)
  {
    assert (xs + [payload])[..|xs|] == xs;
  }

  /** In-order delivery with any redeliveries leaves the file as if its bytes had come once: `xs` may repeat
      empty chunks, and concatenates to exactly the chunks delivered so far. */
  lemma {:induction false} RedeliveryIsHarmless(cfg: Config, key: FileKey, fileType: nat, counts: map<nat, nat>,
                                                chunks: seq<Bytes>, order: seq<nat>) returns (xs: seq<Bytes>)
    requires InOrder(order, |chunks|)
    ensures High(order) <= |chunks| && Concat(xs) == Concat(chunks[..High(order)]) && (order == [] <==> xs == [])
    ensures Holding(cfg, key, fileType, counts, xs, Delivered(cfg, key, fileType, counts, chunks, order))
    decreases |order|
  {
    HighBelow(order, |chunks|);
    if order == [] {
      xs := [];
      assert chunks[..0] == [];
    } else {
      hide Holding, Dispatched, Concat;
      var init, j := order[..|order| - 1], order[|order| - 1];
      assert order[..|order| - 1] == init;
      assert forall i :: 0 <= i < |init| ==> init[i] == order[i] && init[..i] == order[..i];
      xs := RedeliveryIsHarmless(cfg, key, fileType, counts, chunks, init);
      var before := Delivered(cfg, key, fileType, counts, chunks, init);
      var o, c, h := OffsetOf(chunks, j), chunks[j], High(init);
      OffsetStep(chunks, j);
      if j < h { OffsetGrows(chunks, j + 1, h); }
      if j == h || (o == |Concat(xs)| && before.Ok?) {
        ConcatSnoc(xs, c);
        assert j < h ==> c == [] && Concat(xs) + c == Concat(xs);
        if before.Ok? {
          TakesNext(cfg, key, fileType, counts, xs, before.value, c);
        } else {
          FailsOn(cfg, key, fileType, counts, xs, c);
        }
        xs := xs + [c];
      } else if before.Ok? {
        SkipsOld(cfg, key, fileType, counts, xs, before.value, o, c);
        Nonempty(init, j);
      } else {
        Nonempty(init, j);
      }
    }
  }

  lemma Nonempty(init: seq<nat>, j: nat)
    requires j < High(init)
    ensures init != []
  {
  }

  /** So once all chunks have come, the file's outputs are those of its content. */
  lemma SameOutputsDespiteRedelivery(cfg: Config, key: FileKey, fileType: nat, counts: map<nat, nat>,
                                     chunks: seq<Bytes>, order: seq<nat>)
    requires InOrder(order, |chunks|) && High(order) == |chunks| && chunks != []
    ensures var n := Delivered(cfg, key, fileType, counts, chunks, order);
            var w := FileWork(cfg, key, fileType, counts, Concat(chunks));
            && (n.Ok? && n.value.run.Some? && Finishing(cfg, key, n.value.run.value).Ok? <==> w.Ok?)
            && (w.Ok? ==> var r := Finishing(cfg, key, n.value.run.value).value;
                          r.out == w.value.out && r.counts == w.value.counts && r.file.core == w.value.core)
  {
    hide Finishing, FileWork, RunChunks, Delivered, Concat, InOrder;
    var xs := RedeliveryIsHarmless(cfg, key, fileType, counts, chunks, order);
    assert chunks[..|chunks|] == chunks;
    assert High([]) == 0;
    ChunkingDoesNotMatter(cfg, key, fileType, counts, xs);
  }

  /** A chunk that brings new bytes is acknowledged without effect, and its bytes are lost, exactly when it does not
      start where the file ends. */
  lemma NewBytesAreDroppedExactly(cfg: Config, key: FileKey, fileType: nat, counts: map<nat, nat>, xs: seq<Bytes>,
                                  n: Node,
                                  offset: nat, payload: Bytes)
    requires Holding(cfg, key, fileType, counts, xs, Ok(n)) && offset + |payload| > Expected(n)
    ensures Dispatched(cfg, key, fileType, counts, n, offset, payload) == Ok(n) <==> offset != Expected(n)
  {
    hide RunChunks;
    HoldingIntake(cfg, key, fileType, counts, xs, n);
    if offset == Expected(n) {
      TakesNext(cfg, key, fileType, counts, xs, n, payload);
      var next := Dispatched(cfg, key, fileType, counts, n, offset, payload);
      if next.Ok? { HoldingIntake(cfg, key, fileType, counts, xs + [payload], next.value); }
    }
  }

  /** The first chunk of a file, coming at offset 1. */
  lemma EarlyChunkIsDropped(cfg: Config, key: FileKey, fileType: nat, counts: map<nat, nat>, b: byte)
    ensures Dispatched(cfg, key, fileType, counts, UNSEEN, 1, [b]) == Ok(UNSEEN)
  {
    NewBytesAreDroppedExactly(cfg, key, fileType, counts, [], UNSEEN, 1, [b]);
  }

  /** After the one byte `a`, a chunk that repeats it and brings `b`. */
  lemma StraddlingChunkIsDropped(cfg: Config, key: FileKey, fileType: nat, counts: map<nat, nat>, n: Node, a: byte,
                                 b: byte)
    requires Holding(cfg, key, fileType, counts, [[a]], Ok(n))
    ensures Dispatched(cfg, key, fileType, counts, n, 0, [a, b]) == Ok(n)
  {
    hide RunChunks, Dispatched;
    HoldingIntake(cfg, key, fileType, counts, [[a]], n);
    ConcatSnoc([], [a]);
    assert [] + [[a]] == [[a]] && Concat<byte>([]) == [];
    NewBytesAreDroppedExactly(cfg, key, fileType, counts, [[a]], n, 0, [a, b]);
  }
}
