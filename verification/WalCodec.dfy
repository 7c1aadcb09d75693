/** The byte format of the write-ahead log. Text fields are their UTF-8 bytes and the state change is
    its JSON bytes. */
module WalCodec {
  import opened Prelude
  import opened Encoding

  datatype WireEntry = WireEntry(outputId: Bytes, inputId: Bytes, destination: Bytes, body: Bytes, shard: Option<nat>)

  datatype WireRecord =
    | Applied(msgId: Bytes, client: nat, sender: nat, kind: nat, seqNo: nat, change: Bytes, outputs: seq<WireEntry>)
    | Done(msgId: Bytes, client: nat, sender: nat, kind: nat, seqNo: nat)

  const HEADER_SIZE := 5
  const INPUT_APPLIED := 1
  const INPUT_DONE := 2
  const KINDS := 9

  // ----- Writing -----

  function ShardCode(shard: Option<nat>): nat { if shard.None? then 0 else shard.value + 1 }

  predicate EntryFits(e: WireEntry) {
    && |e.outputId| < Pow256(2) && |e.inputId| < Pow256(2) && |e.destination| < Pow256(2)
    && |e.body| < Pow256(4) && ShardCode(e.shard) < Pow256(4)
  }

  function EntryBytes(e: WireEntry): Bytes {
    Sized(2, e.outputId) + (Sized(2, e.inputId) + (Sized(2, e.destination) +
      (Sized(4, e.body) + Big(4, ShardCode(e.shard)))))
  }

  function EntriesBytes(es: seq<WireEntry>): Bytes {
    if es == [] then [] else EntryBytes(es[0]) + EntriesBytes(es[1..])
  }

  /** The fields both record types start with. */
  function HeadBytes(r: WireRecord): Bytes {
    Sized(2, r.msgId) + (Big(4, r.client) + (Big(4, r.sender) + (Big(1, r.kind) + Big(4, r.seqNo))))
  }

  function PayloadBytes(r: WireRecord): Bytes {
    match r
    case Done(_, _, _, _, _) => HeadBytes(r)
    case Applied(_, _, _, _, _, change, outputs) =>
      HeadBytes(r) + (Sized(4, change) + (Big(2, |outputs|) + EntriesBytes(outputs)))
  }

  function TypeCode(r: WireRecord): nat { if r.Applied? then INPUT_APPLIED else INPUT_DONE }

  /** What the writer checks before it writes. */
  predicate Fits(r: WireRecord) {
    && |r.msgId| < Pow256(2) && r.client < Pow256(4) && r.sender < Pow256(4)
    && r.kind < KINDS && r.seqNo < Pow256(4)
    && (r.Applied? ==>
          && |r.change| < Pow256(4) && |r.outputs| < Pow256(2)
          && forall i :: 0 <= i < |r.outputs| ==> EntryFits(r.outputs[i]))
    && |PayloadBytes(r)| < Pow256(4)
  }

  function RecordBytes(r: WireRecord): Bytes {
    Big(1, TypeCode(r)) + (Big(4, |PayloadBytes(r)|) + PayloadBytes(r))
  }

  /** One `write_input_*` call: the bytes appended, or the error raised before writing. */
  function Write(r: WireRecord): Result<Bytes> {
    if Fits(r) then Ok(RecordBytes(r)) else Err
  }

  function FileBytes(rs: seq<WireRecord>): Bytes {
    if rs == [] then [] else RecordBytes(rs[0]) + FileBytes(rs[1..])
  }

  // ----- Reading -----

  function ReadEntry(data: Bytes, offset: nat): Result<(WireEntry, nat)> {
    var outputId := ReadSized(data, offset, 2);
    if outputId.Err? then Err else
    var inputId := ReadSized(data, outputId.value.1, 2);
    if inputId.Err? then Err else
    var destination := ReadSized(data, inputId.value.1, 2);
    if destination.Err? then Err else
    var body := ReadSized(data, destination.value.1, 4);
    if body.Err? then Err else
    var shard := ReadUint(data, body.value.1, 4);
    if shard.Err? then Err else
    Ok((WireEntry(outputId.value.0, inputId.value.0, destination.value.0, body.value.0,
                  if shard.value.0 == 0 then None else Some(shard.value.0 - 1)), shard.value.1))
  }

  function ReadEntries(data: Bytes, offset: nat, count: nat): Result<(seq<WireEntry>, nat)>
    decreases count
  {
    if count == 0 then Ok(([], offset))
    else
      var first := ReadEntry(data, offset);
      if first.Err? then Err else
      var rest := ReadEntries(data, first.value.1, count - 1);
      if rest.Err? then Err else Ok(([first.value.0] + rest.value.0, rest.value.1))
  }

  /** The common fields, as a Done record, and the offset after them. */
  function ReadHead(data: Bytes): Result<(WireRecord, nat)> {
    var msgId := ReadSized(data, 0, 2);
    if msgId.Err? then Err else
    var client := ReadUint(data, msgId.value.1, 4);
    if client.Err? then Err else
    var sender := ReadUint(data, client.value.1, 4);
    if sender.Err? then Err else
    var kind := ReadUint(data, sender.value.1, 1);
    if kind.Err? then Err else
    var seqNo := ReadUint(data, kind.value.1, 4);
    if seqNo.Err? then Err else
    if kind.value.0 >= KINDS then Err else
    Ok((Done(msgId.value.0, client.value.0, sender.value.0, kind.value.0, seqNo.value.0), seqNo.value.1))
  }

  function Decode(typeCode: nat, payload: Bytes): Result<WireRecord> {
    var head := ReadHead(payload);
    if head.Err? then Err
    else if typeCode == INPUT_DONE then
      if head.value.1 == |payload| then Ok(head.value.0) else Err
    else if typeCode == INPUT_APPLIED then
      var change := ReadSized(payload, head.value.1, 4);
      if change.Err? then Err else
      var count := ReadUint(payload, change.value.1, 2);
      if count.Err? then Err else
      var outputs := ReadEntries(payload, count.value.1, count.value.0);
      if outputs.Err? || outputs.value.1 != |payload| then Err else
      var h := head.value.0;
      Ok(Applied(h.msgId, h.client, h.sender, h.kind, h.seqNo, change.value.0, outputs.value.0))
    else Err
  }

  /** The next whole record at `lsn`, if the file holds one. */
  function NextRaw(data: Bytes, lsn: nat): Option<(nat, Bytes)> {
    if lsn + HEADER_SIZE > |data| then None
    else
      var length := FromBig(data[lsn + 1..lsn + HEADER_SIZE]);
      if lsn + HEADER_SIZE + length > |data| then None
      else Some((data[lsn], data[lsn + HEADER_SIZE..lsn + HEADER_SIZE + length]))
  }

  /** All decoded records from `lsn` on; reading stops silently at a torn tail and fails on a record
      that cannot be decoded. */
  function ReadFrom(data: Bytes, lsn: nat): Result<seq<WireRecord>>
    decreases |data| - lsn
  {
    var raw := NextRaw(data, lsn);
    if raw.None? then Ok([])
    else
      var first := Decode(raw.value.0, raw.value.1);
      if first.Err? then Err
      else
        var rest := ReadFrom(data, lsn + HEADER_SIZE + |raw.value.1|);
        if rest.Err? then Err else Ok([first.value] + rest.value)
  }

  function Prepend(acc: seq<WireRecord>, rest: Result<seq<WireRecord>>): Result<seq<WireRecord>> {
    if rest.Err? then Err else Ok(acc + rest.value)
  }

  lemma ReadFromStep(data: Bytes, lsn: nat, acc: seq<WireRecord>)
    ensures NextRaw(data, lsn).None? ==> Prepend(acc, ReadFrom(data, lsn)) == Ok(acc)
    ensures NextRaw(data, lsn).Some? ==>
            var (typeCode, payload) := NextRaw(data, lsn).value;
            var first := Decode(typeCode, payload);
            Prepend(acc, ReadFrom(data, lsn)) ==
            if first.Err? then Err else Prepend(acc + [first.value], ReadFrom(data, lsn + HEADER_SIZE + |payload|))
  {
    hide NextRaw, Decode;
    if NextRaw(data, lsn).Some? {
      var (typeCode, payload) := NextRaw(data, lsn).value;
      var first, rest := Decode(typeCode, payload), ReadFrom(data, lsn + HEADER_SIZE + |payload|);
      if first.Ok? && rest.Ok? {
        assert acc + ([first.value] + rest.value) == (acc + [first.value]) + rest.value;
      }
    } else {
      assert acc + [] == acc;
    }
  }

  /** The reading loop over the file. */
  method ReadAll(data: Bytes) returns (records: Result<seq<WireRecord>>)
    ensures records == ReadFrom(data, 0)
  {
    hide Decode, FromBig, ReadFrom;
    var lsn, acc := 0, [];
    assert ReadFrom(data, 0) == Prepend([], ReadFrom(data, 0)) by {
      assert ReadFrom(data, 0).Ok? ==> [] + ReadFrom(data, 0).value == ReadFrom(data, 0).value;
    }
    while true
      invariant lsn <= |data|
      invariant ReadFrom(data, 0) == Prepend(acc, ReadFrom(data, lsn))
      decreases |data| - lsn
    {
      ReadFromStep(data, lsn, acc);
      var raw := NextRaw(data, lsn);
      if raw.None? {
        return Ok(acc);
      }
      var first := Decode(raw.value.0, raw.value.1);
      if first.Err? {
        return Err;
      }
      acc := acc + [first.value];
      lsn := lsn + HEADER_SIZE + |raw.value.1|;
    }
  }

  // ----- Round trip -----

  lemma ReadEntryAt(data: Bytes, offset: nat, e: WireEntry)
    requires EntryFits(e) && At(data, offset, EntryBytes(e))
    ensures ReadEntry(data, offset) == Ok((e, offset + |EntryBytes(e)|))
  {
    hide ReadSized, ReadUint, At, Pow256, Big;
    var d := Big(4, ShardCode(e.shard));
    var c := Sized(4, e.body) + d;
    var b := Sized(2, e.destination) + c;
    var a := Sized(2, e.inputId) + b;
    AtPlus(data, offset, Sized(2, e.outputId), a);
    var o1 := offset + |Sized(2, e.outputId)|;
    AtPlus(data, o1, Sized(2, e.inputId), b);
    var o2 := o1 + |Sized(2, e.inputId)|;
    AtPlus(data, o2, Sized(2, e.destination), c);
    var o3 := o2 + |Sized(2, e.destination)|;
    AtPlus(data, o3, Sized(4, e.body), d);
    var o4 := o3 + |Sized(4, e.body)|;
    ReadSizedAt(data, offset, 2, e.outputId);
    ReadSizedAt(data, o1, 2, e.inputId);
    ReadSizedAt(data, o2, 2, e.destination);
    ReadSizedAt(data, o3, 4, e.body);
    ReadUintAt(data, o4, 4, ShardCode(e.shard));
  }

  lemma {:induction false} ReadEntriesAt(data: Bytes, offset: nat, es: seq<WireEntry>)
    requires forall i :: 0 <= i < |es| ==> EntryFits(es[i])
    requires At(data, offset, EntriesBytes(es))
    ensures ReadEntries(data, offset, |es|) == Ok((es, offset + |EntriesBytes(es)|))
    decreases es
  {
    hide ReadEntry, EntryBytes, EntryFits, At;
    if es != [] {
      AtPlus(data, offset, EntryBytes(es[0]), EntriesBytes(es[1..]));
      ReadEntryAt(data, offset, es[0]);
      ReadEntriesAt(data, offset + |EntryBytes(es[0])|, es[1..]);
      assert es == [es[0]] + es[1..];
    }
  }

  /** Where the fields of a record's head stand. */
  lemma HeadLayout(data: Bytes, r: WireRecord)
    requires At(data, 0, HeadBytes(r))
    ensures var o := |Sized(2, r.msgId)|;
            && At(data, 0, Sized(2, r.msgId)) && At(data, o, Big(4, r.client)) && At(data, o + 4, Big(4, r.sender))
            && At(data, o + 8, Big(1, r.kind)) && At(data, o + 9, Big(4, r.seqNo)) && |HeadBytes(r)| == o + 13
  {
    hide At, Big, Sized;
    var d := Big(1, r.kind) + Big(4, r.seqNo);
    var c := Big(4, r.sender) + d;
    var b := Big(4, r.client) + c;
    var o := |Sized(2, r.msgId)|;
    AtPlus(data, 0, Sized(2, r.msgId), b);
    AtPlus(data, o, Big(4, r.client), c);
    AtPlus(data, o + 4, Big(4, r.sender), d);
    AtPlus(data, o + 8, Big(1, r.kind), Big(4, r.seqNo));
  }

  lemma ReadHeadAt(data: Bytes, r: WireRecord)
    requires Fits(r) && At(data, 0, HeadBytes(r))
    ensures ReadHead(data) == Ok((Done(r.msgId, r.client, r.sender, r.kind, r.seqNo), |HeadBytes(r)|))
  {
    assert r.kind < Pow256(1) by { Widths(); }
    hide ReadSized, ReadUint, At, Pow256, Big, PayloadBytes, HeadBytes;
    HeadLayout(data, r);
    var o := |Sized(2, r.msgId)|;
    ReadSizedAt(data, 0, 2, r.msgId);
    ReadUintAt(data, o, 4, r.client);
    ReadUintAt(data, o + 4, 4, r.sender);
    ReadUintAt(data, o + 8, 1, r.kind);
    ReadUintAt(data, o + 9, 4, r.seqNo);
  }

  lemma WholeAt(data: Bytes)
    ensures At(data, 0, data)
  {
    assert data[0..0 + |data|] == data;
  }

  /** Where the parts of an applied record stand. */
  lemma AppliedLayout(r: WireRecord)
    requires r.Applied?
    ensures var data, o := PayloadBytes(r), |HeadBytes(r)|;
            var o' := o + |Sized(4, r.change)|;
            && At(data, 0, HeadBytes(r)) && At(data, o, Sized(4, r.change)) && At(data, o', Big(2, |r.outputs|))
            && At(data, o' + 2, EntriesBytes(r.outputs)) && |data| == o' + 2 + |EntriesBytes(r.outputs)|
  {
    hide At, Big, HeadBytes, EntriesBytes, Sized;
    var data, o := PayloadBytes(r), |HeadBytes(r)|;
    WholeAt(data);
    var b := Big(2, |r.outputs|) + EntriesBytes(r.outputs);
    AtPlus(data, 0, HeadBytes(r), Sized(4, r.change) + b);
    AtPlus(data, o, Sized(4, r.change), b);
    AtPlus(data, o + |Sized(4, r.change)|, Big(2, |r.outputs|), EntriesBytes(r.outputs));
  }

  /** Decoding inverts encoding for every record the writer accepts. */
  lemma DecodeInvertsEncode(r: WireRecord)
    requires Fits(r)
    ensures Decode(TypeCode(r), PayloadBytes(r)) == Ok(r)
  {
    hide Pow256, Big, ReadHead, ReadSized, ReadUint, ReadEntries, At, HeadBytes, EntriesBytes, EntryFits;
    var data := PayloadBytes(r);
    if r.Done? {
      WholeAt(data);
      ReadHeadAt(data, r);
    } else {
      AppliedLayout(r);
      hide PayloadBytes;
      var o := |HeadBytes(r)|;
      var o' := o + |Sized(4, r.change)|;
      ReadHeadAt(data, r);
      ReadSizedAt(data, o, 4, r.change);
      ReadUintAt(data, o', 2, |r.outputs|);
      ReadEntriesAt(data, o' + 2, r.outputs);
    }
  }

  /** How many whole records the first `cut` bytes of the file hold. */
  function Whole(rs: seq<WireRecord>, cut: nat): nat {
    if rs == [] || cut < |RecordBytes(rs[0])| then 0 else 1 + Whole(rs[1..], cut - |RecordBytes(rs[0])|)
  }

  lemma {:induction false} WholeBounds(rs: seq<WireRecord>, cut: nat)
    ensures Whole(rs, cut) <= |rs|
  {
    if rs != [] && cut >= |RecordBytes(rs[0])| {
      WholeBounds(rs[1..], cut - |RecordBytes(rs[0])|);
    }
  }

  lemma RecordShape(r: WireRecord)
    requires Fits(r)
    ensures var full := RecordBytes(r);
            && |full| == HEADER_SIZE + |PayloadBytes(r)|
            && full[0] == TypeCode(r)
            && FromBig(full[1..HEADER_SIZE]) == |PayloadBytes(r)|
            && full[HEADER_SIZE..] == PayloadBytes(r)
  {
    hide PayloadBytes;
    var full, payload := RecordBytes(r), PayloadBytes(r);
    assert full[0] == TypeCode(r) by { assert Big(1, TypeCode(r)) == [TypeCode(r)]; }
    assert full[1..HEADER_SIZE] == Big(4, |payload|);
    BigRoundTrip(4, |payload|);
  }

  lemma NextRawAt(data: Bytes, lsn: nat, r: WireRecord, cut: nat)
    requires Fits(r) && lsn + cut == |data|
    requires cut <= |RecordBytes(r)| ==> data[lsn..] == RecordBytes(r)[..cut]
    requires cut >= |RecordBytes(r)| ==> At(data, lsn, RecordBytes(r))
    ensures NextRaw(data, lsn) == if cut < |RecordBytes(r)| then None else Some((TypeCode(r), PayloadBytes(r)))
  {
    hide RecordBytes, PayloadBytes, FromBig, Fits;
    var full := RecordBytes(r);
    RecordShape(r);
    if cut >= HEADER_SIZE {
      var seen := if cut < |full| then cut else |full|;
      assert data[lsn..lsn + seen] == full[..seen];
      SliceOfSlice(data, lsn, lsn + seen, 1, HEADER_SIZE);
      SliceOfSlice(full, 0, seen, 1, HEADER_SIZE);
      assert data[lsn] == data[lsn..lsn + seen][0];
      if cut >= |full| {
        SliceOfSlice(data, lsn, lsn + seen, HEADER_SIZE, seen);
        SliceOfSlice(full, 0, seen, HEADER_SIZE, seen);
      }
    }
  }

  /** What the bytes of a cut file are to its first record and to the others. */
  lemma FirstRecord(data: Bytes, lsn: nat, rs: seq<WireRecord>, cut: nat)
    requires rs != [] && cut <= |FileBytes(rs)| && lsn + cut == |data| && data[lsn..] == FileBytes(rs)[..cut]
    ensures var first := RecordBytes(rs[0]);
            && (cut <= |first| ==> data[lsn..] == first[..cut])
            && (cut >= |first| ==>
                  var rest := FileBytes(rs[1..]);
                  && At(data, lsn, first) && cut - |first| <= |rest|
                  && data[lsn + |first|..] == rest[..cut - |first|])
  {
    hide RecordBytes;
    var first, rest := RecordBytes(rs[0]), FileBytes(rs[1..]);
    assert FileBytes(rs) == first + rest;
    hide FileBytes;
    if cut <= |first| {
      assert (first + rest)[..cut] == first[..cut];
    }
    if cut >= |first| {
      assert data[lsn..] == first + rest[..cut - |first|];
      assert data[lsn..lsn + |first|] == data[lsn..][..|first|];
      assert data[lsn + |first|..] == data[lsn..][|first|..];
    }
  }

  /** Reading a file cut at any byte yields exactly its whole records, as they were written: a torn tail
      costs only the torn record. */
  lemma {:induction false} TornTailReads(data: Bytes, lsn: nat, rs: seq<WireRecord>, cut: nat)
    requires forall i :: 0 <= i < |rs| ==> Fits(rs[i])
    requires cut <= |FileBytes(rs)| && lsn + cut == |data| && data[lsn..] == FileBytes(rs)[..cut]
    ensures Whole(rs, cut) <= |rs|
    ensures ReadFrom(data, lsn) == Ok(rs[..Whole(rs, cut)])
    decreases rs
  {
    hide RecordBytes, Decode, NextRaw, Fits, At, FileBytes;
    WholeBounds(rs, cut);
    if rs == [] {
      NothingReads(data, lsn, cut);
    } else {
      var first := RecordBytes(rs[0]);
      FirstRecord(data, lsn, rs, cut);
      NextRawAt(data, lsn, rs[0], cut);
      if cut >= |first| {
        DecodeInvertsEncode(rs[0]);
        RecordSize(rs[0]);
        TornTailReads(data, lsn + |first|, rs[1..], cut - |first|);
        assert rs[..Whole(rs, cut)] == [rs[0]] + rs[1..][..Whole(rs[1..], cut - |first|)];
      }
    }
  }

  lemma RecordSize(r: WireRecord)
    ensures |RecordBytes(r)| == HEADER_SIZE + |PayloadBytes(r)|
  {
  }

  lemma NothingReads(data: Bytes, lsn: nat, cut: nat)
    requires cut <= |FileBytes([])| && lsn + cut == |data|
    ensures ReadFrom(data, lsn) == Ok([])
  {
    hide NextRaw, Decode;
    NothingLeft(data, lsn);
  }

  lemma NothingLeft(data: Bytes, lsn: nat)
    requires lsn == |data|
    ensures NextRaw(data, lsn).None?
  {
  }

  /** A whole file reads back as everything written to it. */
  lemma FileReadsBack(rs: seq<WireRecord>)
    requires forall i :: 0 <= i < |rs| ==> Fits(rs[i])
    ensures ReadFrom(FileBytes(rs), 0) == Ok(rs)
  {
    hide RecordBytes, Decode, NextRaw, Fits, ReadFrom;
    var data := FileBytes(rs);
    assert data[0..] == data == data[..|data|];
    TornTailReads(data, 0, rs, |data|);
    AllWhole(rs);
    assert rs[..|rs|] == rs;
  }

  lemma {:induction false} AllWhole(rs: seq<WireRecord>)
    ensures Whole(rs, |FileBytes(rs)|) == |rs|
  {
    if rs != [] {
      AllWhole(rs[1..]);
    }
  }

  lemma {:induction false} FileSnoc(rs: seq<WireRecord>, r: WireRecord)
    ensures FileBytes(rs + [r]) == FileBytes(rs) + RecordBytes(r)
  {
    hide RecordBytes;
    if rs == [] {
      assert [] + [r] == [r];
    } else {
      assert (rs + [r])[1..] == rs[1..] + [r];
      FileSnoc(rs[1..], r);
    }
  }

  /** Appending after a file that ends on a record boundary reads back whole. */
  lemma AppendAtBoundary(rs: seq<WireRecord>, r: WireRecord)
    requires Fits(r) && forall i :: 0 <= i < |rs| ==> Fits(rs[i])
    ensures ReadFrom(FileBytes(rs) + RecordBytes(r), 0) == Ok(rs + [r])
  {
    hide RecordBytes, Fits, ReadFrom;
    FileSnoc(rs, r);
    FileReadsBack(rs + [r]);
  }

  // ----- What the reader accepts -----

  lemma ReadEntryFrom(data: Bytes, offset: nat)
    requires ReadEntry(data, offset).Ok?
    ensures var (e, o) := ReadEntry(data, offset).value;
            EntryFits(e) && o == offset + |EntryBytes(e)| && At(data, offset, EntryBytes(e))
  {
    hide ReadSized, ReadUint, At, Pow256, Big, Sized;
    var (e, _) := ReadEntry(data, offset).value;
    var o1 := offset + |Sized(2, e.outputId)|;
    var o2 := o1 + |Sized(2, e.inputId)|;
    var o3 := o2 + |Sized(2, e.destination)|;
    var o4 := o3 + |Sized(4, e.body)|;
    ReadSizedFrom(data, offset, 2);
    ReadSizedFrom(data, o1, 2);
    ReadSizedFrom(data, o2, 2);
    ReadSizedFrom(data, o3, 4);
    ReadUintFrom(data, o4, 4);
    var d := Sized(4, e.body) + Big(4, ShardCode(e.shard));
    AtJoin(data, o3, Sized(4, e.body), Big(4, ShardCode(e.shard)));
    AtJoin(data, o2, Sized(2, e.destination), d);
    AtJoin(data, o1, Sized(2, e.inputId), Sized(2, e.destination) + d);
    AtJoin(data, offset, Sized(2, e.outputId), Sized(2, e.inputId) + (Sized(2, e.destination) + d));
  }

  lemma {:induction false} ReadEntriesFrom(data: Bytes, offset: nat, count: nat)
    requires ReadEntries(data, offset, count).Ok? && offset <= |data|
    ensures var (es, o) := ReadEntries(data, offset, count).value;
            && |es| == count && (forall i :: 0 <= i < |es| ==> EntryFits(es[i]))
            && o == offset + |EntriesBytes(es)| && At(data, offset, EntriesBytes(es))
    decreases count
  {
    hide ReadEntry, EntryFits, EntryBytes;
    var (es, _) := ReadEntries(data, offset, count).value;
    if count > 0 {
      ReadEntryFrom(data, offset);
      var o := offset + |EntryBytes(es[0])|;
      ReadEntriesFrom(data, o, count - 1);
      assert es[1..] == ReadEntries(data, o, count - 1).value.0;
      AtJoin(data, offset, EntryBytes(es[0]), EntriesBytes(es[1..]));
    }
  }

  lemma ReadHeadFrom(data: Bytes)
    requires ReadHead(data).Ok?
    ensures var (r, o) := ReadHead(data).value;
            && r.Done? && |r.msgId| < Pow256(2) && r.client < Pow256(4) && r.sender < Pow256(4) && r.kind < KINDS
            && r.seqNo < Pow256(4) && o == |HeadBytes(r)| && At(data, 0, HeadBytes(r))
  {
    hide ReadSized, ReadUint, At, Pow256, Big, Sized;
    var (r, _) := ReadHead(data).value;
    var o1 := |Sized(2, r.msgId)|;
    ReadSizedFrom(data, 0, 2);
    ReadUintFrom(data, o1, 4);
    ReadUintFrom(data, o1 + 4, 4);
    ReadUintFrom(data, o1 + 8, 1);
    ReadUintFrom(data, o1 + 9, 4);
    var d := Big(1, r.kind) + Big(4, r.seqNo);
    AtJoin(data, o1 + 8, Big(1, r.kind), Big(4, r.seqNo));
    AtJoin(data, o1 + 4, Big(4, r.sender), d);
    AtJoin(data, o1, Big(4, r.client), Big(4, r.sender) + d);
    AtJoin(data, 0, Sized(2, r.msgId), Big(4, r.client) + (Big(4, r.sender) + d));
  }

  lemma SameHead(a: WireRecord, b: WireRecord)
    requires a.msgId == b.msgId && a.client == b.client && a.sender == b.sender
    requires a.kind == b.kind && a.seqNo == b.seqNo
    ensures HeadBytes(a) == HeadBytes(b)
  {
  }

  /** Encoding inverts decoding: a payload decodes to a record only if it is that record's encoding. */
  lemma EncodeInvertsDecode(typeCode: nat, payload: Bytes)
    requires Decode(typeCode, payload).Ok? && |payload| < Pow256(4)
    ensures var r := Decode(typeCode, payload).value;
            Fits(r) && typeCode == TypeCode(r) && payload == PayloadBytes(r)
  {
    hide ReadHead, ReadSized, ReadUint, ReadEntries, At, Pow256, Big, HeadBytes, EntriesBytes, EntryFits, Sized;
    var r := Decode(typeCode, payload).value;
    ReadHeadFrom(payload);
    var h := ReadHead(payload).value.0;
    SameHead(h, r);
    if r.Done? {
      WholeIs(payload, HeadBytes(r));
    } else {
      var o := |HeadBytes(r)|;
      ReadSizedFrom(payload, o, 4);
      var o' := o + |Sized(4, r.change)|;
      ReadUintFrom(payload, o', 2);
      AtWithin(payload, o', Big(2, ReadUint(payload, o', 2).value.0));
      ReadEntriesFrom(payload, o' + 2, ReadUint(payload, o', 2).value.0);
      var b := Big(2, |r.outputs|) + EntriesBytes(r.outputs);
      AtJoin(payload, o', Big(2, |r.outputs|), EntriesBytes(r.outputs));
      AtJoin(payload, o, Sized(4, r.change), b);
      AtJoin(payload, 0, HeadBytes(r), Sized(4, r.change) + b);
      WholeIs(payload, PayloadBytes(r));
    }
  }

  /** The writer accepts exactly the records that some payload of at most 32 bits of length decodes to. */
  lemma WritesExactly(r: WireRecord)
    ensures Write(r).Ok? <==> exists p: Bytes :: |p| < 0x1_0000_0000 && Decode(TypeCode(r), p) == Ok(r)
  {
    Widths();
    hide Decode, PayloadBytes, Pow256, RecordBytes;
    if Fits(r) {
      DecodeInvertsEncode(r);
      assert |PayloadBytes(r)| < 0x1_0000_0000;
    }
    if p: Bytes :| |p| < 0x1_0000_0000 && Decode(TypeCode(r), p) == Ok(r) {
      EncodeInvertsDecode(TypeCode(r), p);
    }
  }

  lemma AtWithin(data: Bytes, offset: nat, piece: Bytes)
    requires At(data, offset, piece)
    ensures offset + |piece| <= |data|
  {
  }

  lemma WholeIs(data: Bytes, piece: Bytes)
    requires At(data, 0, piece) && |piece| == |data|
    ensures data == piece
  {
    assert data[0..|data|] == data;
  }

  /** A record the reader returns stands in the file as the writer writes it. */
  lemma RawIsRecord(data: Bytes, lsn: nat)
    requires NextRaw(data, lsn).Some? && Decode(NextRaw(data, lsn).value.0, NextRaw(data, lsn).value.1).Ok?
    ensures var (typeCode, payload) := NextRaw(data, lsn).value;
            var r := Decode(typeCode, payload).value;
            Fits(r) && At(data, lsn, RecordBytes(r)) && |RecordBytes(r)| == HEADER_SIZE + |payload|
  {
    hide Decode, PayloadBytes, Fits;
    var (typeCode, payload) := NextRaw(data, lsn).value;
    var sizeField := data[lsn + 1..lsn + HEADER_SIZE];
    BigOfBytes(sizeField);
    EncodeInvertsDecode(typeCode, payload);
    BigOne(typeCode);
    hide Big, FromBig, Pow256;
    var end := lsn + HEADER_SIZE + |payload|;
    assert data[lsn..lsn + 1] == [data[lsn]];
    assert data[lsn..end] == data[lsn..lsn + 1] + (sizeField + payload);
  }

  lemma BigOne(v: byte)
    ensures Big(1, v) == [v]
  {
    assert Big(0, v / 256) == [];
  }

  ghost predicate AllFit(rs: seq<WireRecord>) {
    forall i :: 0 <= i < |rs| ==> Fits(rs[i])
  }

  lemma AllFitFirst(rs: seq<WireRecord>)
    requires rs != []
    ensures AllFit(rs) <==> Fits(rs[0]) && AllFit(rs[1..])
  {
    hide Fits;
    assert forall i :: 1 <= i < |rs| ==> rs[i] == rs[1..][i - 1];
    assert forall i :: 0 <= i < |rs| - 1 ==> rs[1..][i] == rs[i + 1];
  }

  lemma ReadsNothing(data: Bytes, lsn: nat)
    requires lsn <= |data|
    ensures ReadFrom(data, lsn) == Ok([]) <==> NextRaw(data, lsn).None?
    ensures At(data, lsn, [])
  {
    hide NextRaw, Decode;
  }

  /** The reader, exactly, on any bytes at all: it returns `rs` if and only if the file starts with the records as
      the writer writes them and what follows is not a whole record. */
  lemma {:induction false} ReadsExactly(data: Bytes, lsn: nat, rs: seq<WireRecord>)
    requires lsn <= |data|
    ensures ReadFrom(data, lsn) == Ok(rs) <==>
            AllFit(rs) && At(data, lsn, FileBytes(rs)) && NextRaw(data, lsn + |FileBytes(rs)|).None?
    decreases rs
  {
    hide RecordBytes, NextRaw, Fits, ReadFrom, At, AllFit;
    if rs == [] {
      ReadsNothing(data, lsn);
      assert AllFit([]) by { NoneFit(); }
    } else {
      var first, rest := RecordBytes(rs[0]), FileBytes(rs[1..]);
      ReadsFirst(data, lsn, rs);
      AllFitFirst(rs);
      if At(data, lsn, first) {
        AtWithin(data, lsn, first);
        ReadsExactly(data, lsn + |first|, rs[1..]);
        AtSplit(data, lsn, first, rest);
      } else if At(data, lsn, first + rest) {
        AtPlus(data, lsn, first, rest);
      }
    }
  }

  lemma NoneFit()
    ensures AllFit([])
  {
  }

  lemma AtSplit(data: Bytes, offset: nat, a: Bytes, b: Bytes)
    requires At(data, offset, a)
    ensures At(data, offset, a + b) <==> At(data, offset + |a|, b)
  {
    if At(data, offset, a + b) { AtPlus(data, offset, a, b); }
    if At(data, offset + |a|, b) { AtJoin(data, offset, a, b); }
  }

  /** The first record returned stands at the start, and reading goes on after it. */
  lemma ReadsFirst(data: Bytes, lsn: nat, rs: seq<WireRecord>)
    requires lsn <= |data| && rs != []
    ensures ReadFrom(data, lsn) == Ok(rs) <==>
            && Fits(rs[0]) && At(data, lsn, RecordBytes(rs[0]))
            && lsn + |RecordBytes(rs[0])| <= |data| && ReadFrom(data, lsn + |RecordBytes(rs[0])|) == Ok(rs[1..])
  {
    hide RecordBytes, Decode, NextRaw, Fits, PayloadBytes;
    var first := rs[0];
    if ReadFrom(data, lsn) == Ok(rs) {
      RawIsRecord(data, lsn);
      var (t, payload) := NextRaw(data, lsn).value;
      assert rs[0] == Decode(t, payload).value;
      AtWithin(data, lsn, RecordBytes(first));
      var rest := ReadFrom(data, lsn + HEADER_SIZE + |payload|);
      assert ([first] + rest.value)[1..] == rest.value;
    }
    if Fits(first) && At(data, lsn, RecordBytes(first)) && lsn + |RecordBytes(first)| <= |data|
       && ReadFrom(data, lsn + |RecordBytes(first)|) == Ok(rs[1..]) {
      NextRawAt(data, lsn, first, |data| - lsn);
      DecodeInvertsEncode(first);
      RecordSize(first);
      assert rs == [first] + rs[1..];
    }
  }

  /** Reopening after a torn write, and appending: `torn` is what the crash left after the whole records `rs`. The
      log reads back as `rs` and the new record if and only if the bytes after `rs` start with the new record and
      do not go on with another whole one. In particular it does when nothing was torn. */
  lemma AppendAfterTornTail(rs: seq<WireRecord>, torn: Bytes, next: WireRecord)
    requires Fits(next) && forall i :: 0 <= i < |rs| ==> Fits(rs[i])
    ensures ReadFrom(FileBytes(rs) + torn + RecordBytes(next), 0) == Ok(rs + [next]) <==>
            RecordBytes(next) <= torn + RecordBytes(next) &&
            NextRaw(torn + RecordBytes(next), |RecordBytes(next)|).None?
  {
    hide RecordBytes, Fits, NextRaw, ReadFrom;
    var head, tail := FileBytes(rs), torn + RecordBytes(next);
    var data := head + tail;
    assert head + torn + RecordBytes(next) == data;
    ReadsExactly(data, 0, rs + [next]);
    FileSnoc(rs, next);
    var n := |RecordBytes(next)|;
    assert data[0..|head|] == head;
    AtSplit(data, 0, head, RecordBytes(next));
    assert |tail| >= n && data[|head|..|head| + n] == tail[..n];
    NextRawShift(head, tail, n);
  }

  lemma NextRawShift(head: Bytes, tail: Bytes, lsn: nat)
    ensures NextRaw(head + tail, |head| + lsn) == NextRaw(tail, lsn)
  {
    hide FromBig;
    var data, at := head + tail, |head| + lsn;
    if lsn + HEADER_SIZE <= |tail| {
      assert data[at + 1..at + HEADER_SIZE] == tail[lsn + 1..lsn + HEADER_SIZE];
      var length := FromBig(tail[lsn + 1..lsn + HEADER_SIZE]);
      if lsn + HEADER_SIZE + length <= |tail| {
        assert data[at + HEADER_SIZE..at + HEADER_SIZE + length] == tail[lsn + HEADER_SIZE..lsn + HEADER_SIZE + length];
      }
    }
  }

  /** The record with another low byte in its sequence number. */
  function WithLow(r: WireRecord, low: byte): WireRecord {
    Done(r.msgId, r.client, r.sender, r.kind, r.seqNo / 256 * 256 + low)
  }

  /** An InputDone record is a fixed part followed by the low byte of its sequence number. */
  lemma DoneLastByte(r: WireRecord, low: byte)
    requires r.Done? && Fits(r)
    ensures var other := WithLow(r, low);
            var full, full' := RecordBytes(r), RecordBytes(other);
            && Fits(other)
            && |full| == |full'| && full[..|full| - 1] == full'[..|full| - 1] && full'[|full| - 1] == low
  {
    hide Big, Pow256, Sized;
    Widths();
    var other, high := WithLow(r, low), Big(3, r.seqNo / 256);
    assert other.seqNo / 256 == r.seqNo / 256 && other.seqNo % 256 == low;
    BigLast(r.seqNo);
    BigLast(other.seqNo);
    DoneBytes(r, high, r.seqNo % 256);
    DoneBytes(other, high, low);
    assert |PayloadBytes(r)| == |PayloadBytes(other)|;
  }

  lemma BigLast(v: nat)
    ensures Big(4, v) == Big(3, v / 256) + [v % 256]
  {
  }

  lemma DoneBytes(r: WireRecord, high: Bytes, low: byte)
    requires r.Done? && Big(4, r.seqNo) == high + [low]
    ensures RecordBytes(r) ==
            Big(1, INPUT_DONE) + Big(4, |PayloadBytes(r)|) + Sized(2, r.msgId) + Big(4, r.client) + Big(4, r.sender)
            + Big(1, r.kind) + high + [low]
  {
    hide Big, Sized;
  }

  /** What is left of a record after its type byte is not a whole record, unless it is of 16 MiB or more. */
  lemma TypeByteMissing(head: Bytes, next: WireRecord)
    requires Fits(next) && |PayloadBytes(next)| < Pow256(3)
    ensures NextRaw(head + RecordBytes(next)[1..], |head|).None?
  {
    var more, payload := RecordBytes(next), PayloadBytes(next);
    BigOne(TypeCode(next));
    BigWider(3, |payload|);
    BigRoundTrip(3, |payload|);
    PayloadSize(next);
    hide PayloadBytes, Big, Pow256;
    var size := Big(3, |payload|);
    var tail := more[1..];
    assert tail == [0] + size + payload;
    assert tail[1..HEADER_SIZE] == size + [payload[0]];
    assert (size + [payload[0]])[..3] == size;
    assert FromBig(tail[1..HEADER_SIZE]) == 256 * |payload| + payload[0];
    hide FromBig;
    NextRawShift(head, tail, 0);
  }

  lemma PayloadSize(r: WireRecord)
    ensures |PayloadBytes(r)| >= 15
    ensures r.Done? ==> |PayloadBytes(r)| == |r.msgId| + 15
  {
    hide Big, EntriesBytes;
  }

  /** The writer reopens the log without cutting a torn tail. When an InputDone lost its last byte, the record appended
      next lends it its own type byte: the reader returns the InputDone with that as the low byte of its sequence
      number, and (records under 16 MiB) drops everything after it. It returns the appended record exactly when that
      is the same InputDone with low byte 2; so committing the same input again is read back exactly when its sequence
      number ends in that byte. */
  lemma TornTailThenAppendMisreads(r: WireRecord, next: WireRecord)
    requires r.Done? && Fits(r) && Fits(next)
    ensures var torn := RecordBytes(r)[..|RecordBytes(r)| - 1];
            var got := ReadFrom(torn + RecordBytes(next), 0);
            && ReadFrom(torn, 0) == Ok([])
            && (got.Ok? ==> |got.value| > 0 && got.value[0] == WithLow(r, TypeCode(next)))
            && (|PayloadBytes(next)| < Pow256(3) ==> got == Ok([WithLow(r, TypeCode(next))]))
            && (got == Ok([next]) <==> next == WithLow(r, INPUT_DONE))
            && (next == r ==> (got == Ok([next]) <==> r.seqNo % 256 == INPUT_DONE))
  {
    var torn := RecordBytes(r)[..|RecordBytes(r)| - 1];
    TornReads(r, next);
    TornSmall(r, next);
    LowByte(r);
    PayloadSize(next);
    Widths();
    assert Pow256(3) == 0x100_0000;
    hide RecordBytes, PayloadBytes, ReadFrom;
  }

  lemma LowByte(r: WireRecord)
    requires r.Done?
    ensures r == WithLow(r, INPUT_DONE) <==> r.seqNo % 256 == INPUT_DONE
  {
  }

  lemma TornReads(r: WireRecord, next: WireRecord)
    requires r.Done? && Fits(r) && Fits(next)
    ensures var torn := RecordBytes(r)[..|RecordBytes(r)| - 1];
            var got := ReadFrom(torn + RecordBytes(next), 0);
            && ReadFrom(torn, 0) == Ok([])
            && (got.Ok? ==> |got.value| > 0 && got.value[0] == WithLow(r, TypeCode(next)))
  {
    hide RecordBytes, PayloadBytes, Decode, Fits, NextRaw, FromBig, WithLow;
    var full, more := RecordBytes(r), RecordBytes(next);
    var other := WithLow(r, TypeCode(next));
    RecordShape(r);
    RecordShape(next);
    DoneLastByte(r, TypeCode(next));
    var n := |full| - 1;
    var torn := full[..n];
    var data := torn + more;
    assert torn[0..] == torn;
    NextRawAt(torn, 0, r, n);
    assert data[0..n + 1] == torn + [more[0]] == RecordBytes(other);
    NextRawAt(data, 0, other, |data|);
    DecodeInvertsEncode(other);
  }

  lemma TornSmall(r: WireRecord, next: WireRecord)
    requires r.Done? && Fits(r) && Fits(next)
    ensures var torn := RecordBytes(r)[..|RecordBytes(r)| - 1];
            |PayloadBytes(next)| < Pow256(3) ==>
              ReadFrom(torn + RecordBytes(next), 0) == Ok([WithLow(r, TypeCode(next))])
  {
    hide RecordBytes, PayloadBytes, Fits, NextRaw, FromBig, WithLow, ReadFrom, Pow256;
    var full, more := RecordBytes(r), RecordBytes(next);
    var other := WithLow(r, TypeCode(next));
    RecordShape(r);
    RecordShape(next);
    DoneLastByte(r, TypeCode(next));
    var head, data := RecordBytes(other), full[..|full| - 1] + more;
    assert head == full[..|full| - 1] + [more[0]];
    assert data == head + more[1..];
    if |PayloadBytes(next)| < Pow256(3) {
      TypeByteMissing(head, next);
      ReadsExactly(data, 0, [other]);
      assert FileBytes([other]) == head by { OneRecord(other); }
      assert data[0..|head|] == head;
    }
  }

  lemma OneRecord(r: WireRecord)
    ensures FileBytes([r]) == RecordBytes(r)
  {
    assert FileBytes([]) == [] && RecordBytes(r) + [] == RecordBytes(r);
  }

  /** One write, and what reading it gives. */
  lemma WriteReadsBack(rs: seq<WireRecord>, r: WireRecord)
    requires forall i :: 0 <= i < |rs| ==> Fits(rs[i])
    ensures Write(r).Ok? ==> ReadFrom(FileBytes(rs) + Write(r).value, 0) == Ok(rs + [r])
  {
    hide ReadFrom, RecordBytes;
    if Fits(r) { AppendAtBoundary(rs, r); }
  }
}
