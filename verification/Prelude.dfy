/** Types and small collection helpers shared by the whole model. */
module Prelude {
  datatype Option<+T> = None | Some(value: T)

  datatype Result<+T> = Ok(value: T) | Err

  type byte = x: int | 0 <= x < 256

  type Bytes = seq<byte>

  /** `d.get(k, default)` of a Python dict. */
  function Get<K, V>(m: map<K, V>, k: K, default: V): V {
    if k in m then m[k] else default
  }

  /** `d.pop(k, None)` of a Python dict. */
  function Pop<K, V>(m: map<K, V>, k: K): map<K, V> {
    m - {k}
  }

  /** Concatenation of a list of lists (`b"".join(parts)`). */
  function Concat<T>(parts: seq<seq<T>>): seq<T> {
    if parts == [] then [] else Concat(parts[..|parts| - 1]) + parts[|parts| - 1]
  }

  lemma ConcatSnoc<T>(parts: seq<seq<T>>, part: seq<T>)
    ensures Concat(parts + [part]) == Concat(parts) + part
  {
    assert (parts + [part])[..|parts|] == parts;
  }

  lemma {:induction false} ConcatPlus<T>(a: seq<seq<T>>, b: seq<seq<T>>)
    ensures Concat(a + b) == Concat(a) + Concat(b)
  {
    if b == [] {
      assert a + b == a;
    } else {
      var init := b[..|b| - 1];
      assert a + b == (a + init) + [b[|b| - 1]];
      ConcatSnoc(a + init, b[|b| - 1]);
      ConcatPlus(a, init);
    }
  }

  /** `s.split(sep)`: the fields between separators, always at least one. */
  function Split<T(==)>(s: seq<T>, sep: T): (fields: seq<seq<T>>)
    ensures |fields| >= 1
  {
    if s == [] then [[]]
    else if s[0] == sep then [[]] + Split(s[1..], sep)
    else
      var rest := Split(s[1..], sep);
      [[s[0]] + rest[0]] + rest[1..]
  }

  /** Two field lists joined at the cut: the last field of the first and the first field of the
      second are one field. */
  function Glue<T>(fa: seq<seq<T>>, fb: seq<seq<T>>): seq<seq<T>>
    requires |fa| >= 1 && |fb| >= 1
  {
    if |fa| == 1 then [fa[0] + fb[0]] + fb[1..] else [fa[0]] + Glue(fa[1..], fb)
  }

  /** Cutting a text at any place glues the fields of the two parts. */
  lemma {:induction false} SplitPlus<T>(a: seq<T>, b: seq<T>, sep: T)
    ensures Split(a + b, sep) == Glue(Split(a, sep), Split(b, sep))
  {
    var fb := Split(b, sep);
    if a == [] {
      assert a + b == b && [] + fb[0] == fb[0];
    } else {
      assert (a + b)[1..] == a[1..] + b;
      SplitPlus(a[1..], b, sep);
      var ra := Split(a[1..], sep);
      if a[0] == sep {
        assert ([[]] + ra)[1..] == ra;
      } else {
        var fa := [[a[0]] + ra[0]] + ra[1..];
        if |ra| == 1 {
          assert [a[0]] + (ra[0] + fb[0]) == fa[0] + fb[0];
        } else {
          assert fa[1..] == ra[1..];
        }
      }
    }
  }

  /** `Glue` in closed form. */
  lemma {:induction false} GlueIs<T>(fa: seq<seq<T>>, fb: seq<seq<T>>)
    requires |fa| >= 1 && |fb| >= 1
    ensures Glue(fa, fb) == fa[..|fa| - 1] + [fa[|fa| - 1] + fb[0]] + fb[1..]
  {
    if |fa| > 1 {
      GlueIs(fa[1..], fb);
      assert fa[..|fa| - 1] == [fa[0]] + fa[1..][..|fa| - 2];
    }
  }

  lemma {:induction false} SplitFree<T>(a: seq<T>, sep: T)
    ensures sep !in a <==> |Split(a, sep)| == 1
    ensures sep !in a ==> Split(a, sep) == [a]
  {
    if a != [] {
      SplitFree(a[1..], sep);
      assert a == [a[0]] + a[1..];
    }
  }

  /** The text before the last occurrence of `c`, i.e. `s.rsplit(c, 1)[0]` when `c` occurs. */
  function BeforeLast<T(==)>(s: seq<T>, c: T): Option<seq<T>> {
    if s == [] then None
    else if s[|s| - 1] == c then Some(s[..|s| - 1])
    else BeforeLast(s[..|s| - 1], c)
  }

  lemma {:induction false} BeforeLastTail<T>(head: seq<T>, c: T, tail: seq<T>)
    requires c !in tail
    ensures BeforeLast(head + [c] + tail, c) == Some(head)
  {
    var s := head + [c] + tail;
    if tail == [] {
      assert s[..|s| - 1] == head;
    } else {
      assert s[..|s| - 1] == head + [c] + tail[..|tail| - 1];
      BeforeLastTail(head, c, tail[..|tail| - 1]);
    }
  }

  lemma SliceOfSlice<T>(s: seq<T>, a: nat, b: nat, c: nat, d: nat)
    requires a <= b <= |s| && c <= d <= b - a
    ensures s[a..b][c..d] == s[a + c..a + d]
  {
    var t := s[a..b];
    forall i | 0 <= i < d - c
      ensures t[c..d][i] == s[a + c..a + d][i]
    {
      assert t[c..d][i] == t[c + i] == s[a + c + i];
    }
  }
}
