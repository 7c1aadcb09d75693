/** Big-endian numbers and length-prefixed fields. */
module Encoding {
  import opened Prelude

  function Pow256(w: nat): nat { if w == 0 then 1 else 256 * Pow256(w - 1) }

  /** `v` in `w` bytes, most significant first. */
  function Big(w: nat, v: nat): (b: Bytes)
    ensures |b| == w
  {
    if w == 0 then [] else Big(w - 1, v / 256) + [v % 256]
  }

  function FromBig(b: Bytes): nat {
    if b == [] then 0 else 256 * FromBig(b[..|b| - 1]) + b[|b| - 1]
  }

  lemma {:induction false} BigRoundTrip(w: nat, v: nat)
    requires v < Pow256(w)
    ensures FromBig(Big(w, v)) == v
  {
    if w > 0 {
      BigRoundTrip(w - 1, v / 256);
      assert Big(w, v)[..w - 1] == Big(w - 1, v / 256);
    }
  }

  /** A number that fits a narrower field has a zero byte in front. */
  lemma {:induction false} BigWider(w: nat, v: nat)
    requires v < Pow256(w)
    ensures Big(w + 1, v) == [0] + Big(w, v)
  {
    if w > 0 {
      BigWider(w - 1, v / 256);
      assert [0] + (Big(w - 1, v / 256) + [v % 256]) == ([0] + Big(w - 1, v / 256)) + [v % 256];
    } else {
      assert Big(0, 0) == [];
    }
  }

  /** Every byte string is the encoding of its value: no two encodings of a number. */
  lemma {:induction false} BigOfBytes(b: Bytes)
    ensures Big(|b|, FromBig(b)) == b && FromBig(b) < Pow256(|b|)
  {
    if b != [] {
      var init, last := b[..|b| - 1], b[|b| - 1];
      BigOfBytes(init);
      assert FromBig(b) / 256 == FromBig(init) && FromBig(b) % 256 == last;
      assert b == init + [last];
    }
  }

  lemma Widths()
    ensures Pow256(1) == 0x100 && Pow256(2) == 0x1_0000 && Pow256(4) == 0x1_0000_0000
    ensures Pow256(8) == 0x1_0000_0000_0000_0000
  {
    assert Pow256(3) == 0x100_0000;
    assert Pow256(6) == 0x1_0000_0000_0000;
  }

  /** `piece` stands in `data` at `offset`. */
  ghost predicate At(data: Bytes, offset: nat, piece: Bytes) {
    offset + |piece| <= |data| && data[offset..offset + |piece|] == piece
  }

  lemma AtPlus(data: Bytes, offset: nat, a: Bytes, b: Bytes)
    requires At(data, offset, a + b)
    ensures At(data, offset, a) && At(data, offset + |a|, b)
  {
    var piece := data[offset..offset + |a + b|];
    assert piece[..|a|] == a && piece[|a|..] == b;
    assert data[offset..offset + |a|] == piece[..|a|];
    assert data[offset + |a|..offset + |a| + |b|] == piece[|a|..];
  }

  lemma AtJoin(data: Bytes, offset: nat, a: Bytes, b: Bytes)
    requires At(data, offset, a) && At(data, offset + |a|, b)
    ensures At(data, offset, a + b)
  {
    var o, m, e := offset, offset + |a|, offset + |a| + |b|;
    assert data[o..e] == data[o..m] + data[m..e];
  }

  function ReadExact(data: Bytes, offset: nat, n: nat): Result<(Bytes, nat)> {
    if offset + n > |data| then Err else Ok((data[offset..offset + n], offset + n))
  }

  function ReadUint(data: Bytes, offset: nat, w: nat): Result<(nat, nat)> {
    var raw := ReadExact(data, offset, w);
    if raw.Err? then Err else Ok((FromBig(raw.value.0), raw.value.1))
  }

  function ReadSized(data: Bytes, offset: nat, w: nat): Result<(Bytes, nat)> {
    var n := ReadUint(data, offset, w);
    if n.Err? then Err else ReadExact(data, n.value.1, n.value.0)
  }

  /** A field preceded by its length in `w` bytes. */
  function Sized(w: nat, b: Bytes): Bytes { Big(w, |b|) + b }

  lemma ReadUintAt(data: Bytes, offset: nat, w: nat, v: nat)
    requires v < Pow256(w) && At(data, offset, Big(w, v))
    ensures ReadUint(data, offset, w) == Ok((v, offset + w))
  {
    BigRoundTrip(w, v);
  }

  lemma ReadSizedAt(data: Bytes, offset: nat, w: nat, b: Bytes)
    requires |b| < Pow256(w) && At(data, offset, Sized(w, b))
    ensures ReadSized(data, offset, w) == Ok((b, offset + w + |b|))
  {
    AtPlus(data, offset, Big(w, |b|), b);
    ReadUintAt(data, offset, w, |b|);
  }

  /** What was read stood there. */
  lemma ReadUintFrom(data: Bytes, offset: nat, w: nat)
    requires ReadUint(data, offset, w).Ok?
    ensures var (v, o) := ReadUint(data, offset, w).value;
            o == offset + w && v < Pow256(w) && At(data, offset, Big(w, v))
  {
    BigOfBytes(data[offset..offset + w]);
  }

  lemma ReadSizedFrom(data: Bytes, offset: nat, w: nat)
    requires ReadSized(data, offset, w).Ok?
    ensures var (b, o) := ReadSized(data, offset, w).value;
            o == offset + |Sized(w, b)| && |b| < Pow256(w) && At(data, offset, Sized(w, b))
  {
    ReadUintFrom(data, offset, w);
    var (b, _) := ReadSized(data, offset, w).value;
    AtJoin(data, offset, Big(w, |b|), b);
  }
}
