/** The wire format of a batch of file lines. Paths and header columns are their UTF-8 bytes. */
module LineBatches {
  import opened Prelude
  import opened Encoding

  datatype LineBatch = LineBatch(fileType: nat, relPath: Bytes, batchId: nat, firstLineNumber: nat,
                                 header: seq<Bytes>, lines: seq<Bytes>)

  const FIXED_HEADER_SIZE := 29

  predicate ItemsFit(items: seq<Bytes>) {
    |items| < Pow256(4) && forall i :: 0 <= i < |items| ==> |items[i]| < Pow256(4)
  }

  /** What the serializer validates. */
  predicate Fits(b: LineBatch) {
    && b.fileType < Pow256(1) && b.batchId < Pow256(8) && b.firstLineNumber < Pow256(8)
    && |b.relPath| < Pow256(4) && ItemsFit(b.header) && ItemsFit(b.lines)
  }

  function ItemsBytes(items: seq<Bytes>): Bytes {
    if items == [] then [] else Sized(4, items[0]) + ItemsBytes(items[1..])
  }

  function FixedBytes(b: LineBatch): Bytes {
    Big(1, b.fileType) + (Big(8, b.batchId) + (Big(8, b.firstLineNumber) +
      (Big(4, |b.relPath|) + (Big(4, |b.header|) + Big(4, |b.lines|)))))
  }

  function BatchBytes(b: LineBatch): Bytes {
    FixedBytes(b) + (b.relPath + (ItemsBytes(b.header) + ItemsBytes(b.lines)))
  }

  function Serialize(b: LineBatch): Result<Bytes> {
    if Fits(b) then Ok(BatchBytes(b)) else Err
  }

  function ReadItems(data: Bytes, offset: nat, count: nat): Result<(seq<Bytes>, nat)>
    decreases count
  {
    if count == 0 then Ok(([], offset))
    else
      var first := ReadSized(data, offset, 4);
      if first.Err? then Err else
      var rest := ReadItems(data, first.value.1, count - 1);
      if rest.Err? then Err else Ok(([first.value.0] + rest.value.0, rest.value.1))
  }

  function Deserialize(data: Bytes): Result<LineBatch> {
    if |data| < FIXED_HEADER_SIZE then Err
    else
      var fileType, batchId, firstLine := FromBig(data[0..1]), FromBig(data[1..9]), FromBig(data[9..17]);
      var pathSize, headerCount, lineCount := FromBig(data[17..21]), FromBig(data[21..25]), FromBig(data[25..29]);
      var path := ReadExact(data, FIXED_HEADER_SIZE, pathSize);
      if path.Err? then Err else
      var header := ReadItems(data, path.value.1, headerCount);
      if header.Err? then Err else
      var lines := ReadItems(data, header.value.1, lineCount);
      if lines.Err? || lines.value.1 != |data| then Err else
      Ok(LineBatch(fileType, path.value.0, batchId, firstLine, header.value.0, lines.value.0))
  }

  /** Bytes of the items with their length prefixes. */
  function ItemsSize(items: seq<Bytes>): nat {
    if items == [] then 0 else ItemsSize(items[..|items| - 1]) + 4 + |items[|items| - 1]|
  }

  lemma {:induction false} ItemsSizeFront(items: seq<Bytes>)
    requires items != []
    ensures ItemsSize(items) == 4 + |items[0]| + ItemsSize(items[1..])
  {
    if |items| > 1 {
      var init := items[..|items| - 1];
      ItemsSizeFront(init);
      assert init[1..] == items[1..][..|items| - 2];
    }
  }

  lemma {:induction false} ItemsBytesSize(items: seq<Bytes>)
    ensures |ItemsBytes(items)| == ItemsSize(items)
  {
    if items != [] {
      ItemsBytesSize(items[1..]);
      ItemsSizeFront(items);
    }
  }

  /** The serialized size of a batch. */
  lemma BatchSize(b: LineBatch)
    ensures |BatchBytes(b)| == FIXED_HEADER_SIZE + |b.relPath| + ItemsSize(b.header) + ItemsSize(b.lines)
  {
    ItemsBytesSize(b.header);
    ItemsBytesSize(b.lines);
  }

  lemma {:induction false} ReadItemsAt(data: Bytes, offset: nat, items: seq<Bytes>)
    requires forall i :: 0 <= i < |items| ==> |items[i]| < Pow256(4)
    requires At(data, offset, ItemsBytes(items))
    ensures ReadItems(data, offset, |items|) == Ok((items, offset + |ItemsBytes(items)|))
    decreases items
  {
    hide ReadSized, At, Pow256, Big;
    if items != [] {
      AtPlus(data, offset, Sized(4, items[0]), ItemsBytes(items[1..]));
      ReadSizedAt(data, offset, 4, items[0]);
      ReadItemsAt(data, offset + |Sized(4, items[0])|, items[1..]);
      assert items == [items[0]] + items[1..];
    }
  }

  lemma FieldAt(data: Bytes, offset: nat, w: nat, v: nat)
    requires v < Pow256(w) && At(data, offset, Big(w, v))
    ensures offset + w <= |data| && FromBig(data[offset..offset + w]) == v
  {
    BigRoundTrip(w, v);
  }

  lemma ReadFixed(data: Bytes, b: LineBatch)
    requires Fits(b) && At(data, 0, FixedBytes(b))
    ensures |data| >= FIXED_HEADER_SIZE
    ensures FromBig(data[0..1]) == b.fileType && FromBig(data[1..9]) == b.batchId
    ensures FromBig(data[9..17]) == b.firstLineNumber && FromBig(data[17..21]) == |b.relPath|
    ensures FromBig(data[21..25]) == |b.header| && FromBig(data[25..29]) == |b.lines|
  {
    hide At, Pow256, Big, FromBig;
    var e := Big(4, |b.header|) + Big(4, |b.lines|);
    var d := Big(4, |b.relPath|) + e;
    var c := Big(8, b.firstLineNumber) + d;
    var f := Big(8, b.batchId) + c;
    AtPlus(data, 0, Big(1, b.fileType), f);
    AtPlus(data, 1, Big(8, b.batchId), c);
    AtPlus(data, 9, Big(8, b.firstLineNumber), d);
    AtPlus(data, 17, Big(4, |b.relPath|), e);
    AtPlus(data, 21, Big(4, |b.header|), Big(4, |b.lines|));
    FieldAt(data, 0, 1, b.fileType);
    FieldAt(data, 1, 8, b.batchId);
    FieldAt(data, 9, 8, b.firstLineNumber);
    FieldAt(data, 17, 4, |b.relPath|);
    FieldAt(data, 21, 4, |b.header|);
    FieldAt(data, 25, 4, |b.lines|);
  }

  /** Where the parts of the serialized batch stand. */
  lemma Layout(b: LineBatch)
    ensures var data, o := BatchBytes(b), FIXED_HEADER_SIZE + |b.relPath|;
            && At(data, 0, FixedBytes(b)) && At(data, FIXED_HEADER_SIZE, b.relPath)
            && At(data, o, ItemsBytes(b.header))
            && At(data, o + |ItemsBytes(b.header)|, ItemsBytes(b.lines))
            && |data| == o + |ItemsBytes(b.header)| + |ItemsBytes(b.lines)|
  {
    var data := BatchBytes(b);
    assert |FixedBytes(b)| == FIXED_HEADER_SIZE;
    hide FixedBytes, ItemsBytes;
    assert At(data, 0, data) by { assert data[0..0 + |data|] == data; }
    hide At;
    var rest := ItemsBytes(b.header) + ItemsBytes(b.lines);
    AtPlus(data, 0, FixedBytes(b), b.relPath + rest);
    AtPlus(data, FIXED_HEADER_SIZE, b.relPath, rest);
    AtPlus(data, FIXED_HEADER_SIZE + |b.relPath|, ItemsBytes(b.header), ItemsBytes(b.lines));
  }

  lemma DeserializeBytes(b: LineBatch)
    requires Fits(b)
    ensures Deserialize(BatchBytes(b)) == Ok(b)
  {
    hide ReadItems, Big, Pow256, FromBig, BatchBytes, FixedBytes, ItemsBytes;
    var data := BatchBytes(b);
    Layout(b);
    assert ReadExact(data, FIXED_HEADER_SIZE, |b.relPath|) == Ok((b.relPath, FIXED_HEADER_SIZE + |b.relPath|));
    hide At, ReadExact;
    ReadFixed(data, b);
    var o := FIXED_HEADER_SIZE + |b.relPath|;
    ReadItemsAt(data, o, b.header);
    ReadItemsAt(data, o + |ItemsBytes(b.header)|, b.lines);
  }

  /** Deserializing inverts serializing for every batch that the serializer accepts. */
  lemma DeserializeInvertsSerialize(b: LineBatch)
    ensures Serialize(b).Ok? ==> Deserialize(Serialize(b).value) == Ok(b)
  {
    hide Deserialize, BatchBytes;
    if Fits(b) { DeserializeBytes(b); }
  }

  lemma {:induction false} ReadItemsFrom(data: Bytes, offset: nat, count: nat)
    requires ReadItems(data, offset, count).Ok? && offset <= |data|
    ensures var (items, o) := ReadItems(data, offset, count).value;
            && |items| == count && (forall i :: 0 <= i < |items| ==> |items[i]| < Pow256(4))
            && o == offset + |ItemsBytes(items)| && At(data, offset, ItemsBytes(items))
    decreases count
  {
    hide ReadSized, Pow256, Sized;
    var (items, _) := ReadItems(data, offset, count).value;
    if count > 0 {
      ReadSizedFrom(data, offset, 4);
      var o := offset + |Sized(4, items[0])|;
      assert o <= |data|;
      ReadItemsFrom(data, o, count - 1);
      assert items[1..] == ReadItems(data, o, count - 1).value.0;
      AtJoin(data, offset, Sized(4, items[0]), ItemsBytes(items[1..]));
    }
  }

  lemma FixedFrom(data: Bytes, b: LineBatch)
    requires |data| >= FIXED_HEADER_SIZE
    requires b.fileType == FromBig(data[0..1]) && b.batchId == FromBig(data[1..9])
    requires b.firstLineNumber == FromBig(data[9..17]) && |b.relPath| == FromBig(data[17..21])
    requires |b.header| == FromBig(data[21..25]) && |b.lines| == FromBig(data[25..29])
    ensures data[..FIXED_HEADER_SIZE] == FixedBytes(b)
    ensures b.fileType < Pow256(1) && b.batchId < Pow256(8) && b.firstLineNumber < Pow256(8)
    ensures |b.relPath| < Pow256(4) && |b.header| < Pow256(4) && |b.lines| < Pow256(4)
  {
    hide Big, Pow256, FromBig;
    BigOfBytes(data[0..1]);
    BigOfBytes(data[1..9]);
    BigOfBytes(data[9..17]);
    BigOfBytes(data[17..21]);
    BigOfBytes(data[21..25]);
    BigOfBytes(data[25..29]);
    assert data[..FIXED_HEADER_SIZE] ==
           data[0..1] + (data[1..9] + (data[9..17] + (data[17..21] + (data[21..25] + data[25..29]))));
  }

  /** Where the parts of a readable batch stand. */
  lemma PartsFrom(data: Bytes)
    requires Deserialize(data).Ok?
    ensures var b, o := Deserialize(data).value, FIXED_HEADER_SIZE;
            && |data| >= o && At(data, o, b.relPath) && At(data, o + |b.relPath|, ItemsBytes(b.header))
            && At(data, o + |b.relPath| + |ItemsBytes(b.header)|, ItemsBytes(b.lines))
            && |data| == o + |b.relPath| + |ItemsBytes(b.header)| + |ItemsBytes(b.lines)|
            && data[..o] == FixedBytes(b) && Fits(b)
  {
    hide FixedBytes, ItemsBytes, Pow256, FromBig, ReadItems;
    var b := Deserialize(data).value;
    var pathEnd := FIXED_HEADER_SIZE + |b.relPath|;
    ReadItemsFrom(data, pathEnd, FromBig(data[21..25]));
    var headerEnd := pathEnd + |ItemsBytes(b.header)|;
    ReadItemsFrom(data, headerEnd, FromBig(data[25..29]));
    FixedFrom(data, b);
  }

  /** And the other way round: bytes are read as a batch only if they are that batch's serialization, so the serializer
      accepts exactly the batches that can be read. */
  lemma SerializeInvertsDeserialize(data: Bytes)
    ensures Deserialize(data).Ok? ==> Serialize(Deserialize(data).value) == Ok(data)
  {
    hide Deserialize, FixedBytes, ItemsBytes, Fits;
    if Deserialize(data).Ok? {
      PartsFrom(data);
      var b, o := Deserialize(data).value, FIXED_HEADER_SIZE;
      AtJoin(data, o + |b.relPath|, ItemsBytes(b.header), ItemsBytes(b.lines));
      AtJoin(data, o, b.relPath, ItemsBytes(b.header) + ItemsBytes(b.lines));
      var rest := b.relPath + (ItemsBytes(b.header) + ItemsBytes(b.lines));
      assert data[o..] == data[o..o + |rest|] == rest;
      assert data == data[..o] + data[o..];
    }
  }

  /** The item-reading loop. */
  method ReadByteItems(data: Bytes, start: nat, count: nat) returns (r: Result<(seq<Bytes>, nat)>)
    ensures r == ReadItems(data, start, count)
  {
    var items, offset := [], start;
    assert forall rest: seq<Bytes> :: [] + rest == rest;
    for i := 0 to count
      invariant var rest := ReadItems(data, offset, count - i);
                ReadItems(data, start, count) ==
                if rest.Err? then Err else Ok((items + rest.value.0, rest.value.1))
    {
      ghost var before := ReadItems(data, offset, count - i);
      var item := ReadSized(data, offset, 4);
      if item.Err? {
        return Err;
      }
      ghost var rest := ReadItems(data, item.value.1, count - i - 1);
      assert rest.Ok? ==> items + ([item.value.0] + rest.value.0) == (items + [item.value.0]) + rest.value.0;
      items, offset := items + [item.value.0], item.value.1;
    }
    assert items + [] == items;
    return Ok((items, offset));
  }
}
