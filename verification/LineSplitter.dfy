/** Splitting ordered byte chunks into newline-delimited lines. */
module LineSplitting {
  import opened Prelude

  const NEWLINE: byte := 10

  datatype Splitter = Splitter(maxLine: nat, offset: nat, pending: Bytes)

  function Init<T>(s: seq<T>): seq<T>
    requires |s| >= 1
  {
    s[..|s| - 1]
  }

  function Last<T>(s: seq<T>): T
    requires |s| >= 1
  {
    s[|s| - 1]
  }

  predicate Within(maxLine: nat, lines: seq<Bytes>) {
    forall i :: 0 <= i < |lines| ==> |lines[i]| <= maxLine
  }

  function Pushed(s: Splitter, offset: nat, payload: Bytes): Result<(Splitter, seq<Bytes>)> {
    var fields := Split(s.pending + payload, NEWLINE);
    if offset != s.offset || !Within(s.maxLine, fields) then Err
    else Ok((Splitter(s.maxLine, s.offset + |payload|, Last(fields)), Init(fields)))
  }

  function Finished(s: Splitter): Result<(Splitter, seq<Bytes>)> {
    if s.pending == [] then Ok((s, []))
    else if |s.pending| > s.maxLine then Err
    else Ok((s.(pending := []), [s.pending]))
  }

  /** The lines of a file: the last one needs no newline. */
  function FileLines(content: Bytes): seq<Bytes> {
    var fields := Split(content, NEWLINE);
    if Last(fields) == [] then Init(fields) else fields
  }

  class LineSplitter {
    const maxLineBytes: nat
    var expectedOffset: nat
    var pending: Bytes

    function View(): Splitter
      reads this
    {
      Splitter(maxLineBytes, expectedOffset, pending)
    }

    constructor (s: Splitter)
      ensures View() == s
    {
      maxLineBytes, expectedOffset, pending := s.maxLine, s.offset, s.pending;
    }

    /** Refused chunks leave the splitter as it was. */
    method Push(offset: nat, payload: Bytes) returns (r: Result<seq<Bytes>>)
      modifies this
      ensures match Pushed(old(View()), offset, payload)
              case Err => r == Err && View() == old(View())
              case Ok(p) => r == Ok(p.1) && View() == p.0
    {
      if offset != expectedOffset {
        return Err;
      }
      var lines := Split(pending + payload, NEWLINE);
      var complete, rest := lines[..|lines| - 1], lines[|lines| - 1];
      for i := 0 to |complete|
        invariant Within(maxLineBytes, lines[..i])
      {
        if |complete[i]| > maxLineBytes {
          assert !Within(maxLineBytes, lines);
          return Err;
        }
        assert lines[..i + 1] == lines[..i] + [lines[i]];
      }
      if |rest| > maxLineBytes {
        return Err;
      }
      assert lines == lines[..|complete|] + [rest];
      pending, expectedOffset := rest, expectedOffset + |payload|;
      return Ok(complete);
    }

    method Finish() returns (r: Result<seq<Bytes>>)
      modifies this
      ensures match Finished(old(View()))
              case Err => r == Err && View() == old(View())
              case Ok(p) => r == Ok(p.1) && View() == p.0
    {
      if pending == [] {
        return Ok([]);
      }
      var line := pending;
      if |line| > maxLineBytes {
        return Err;
      }
      pending := [];
      return Ok([line]);
    }
  }

  /** No field contains the separator. */
  lemma {:induction false} FieldsFree<T>(s: seq<T>, sep: T, i: nat)
    requires i < |Split(s, sep)|
    ensures sep !in Split(s, sep)[i]
  {
    if s != [] {
      if s[0] == sep {
        if i > 0 { FieldsFree(s[1..], sep, i - 1); }
      } else {
        FieldsFree(s[1..], sep, i);
      }
    }
  }

  /** More bytes only change the last field: it is split again together with them. */
  lemma SplitMore(content: Bytes, more: Bytes)
    ensures var fields := Split(content, NEWLINE);
            Split(content + more, NEWLINE) == Init(fields) + Split(Last(fields) + more, NEWLINE)
  {
    hide Split, Glue;
    var fields, next := Split(content, NEWLINE), Split(more, NEWLINE);
    var last := Last(fields);
    SplitPlus(content, more, NEWLINE);
    GlueIs(fields, next);
    FieldsFree(content, NEWLINE, |fields| - 1);
    SplitFree(last, NEWLINE);
    SplitPlus(last, more, NEWLINE);
    GlueIs([last], next);
    assert [last][..0] + [last + next[0]] + next[1..] == [last + next[0]] + next[1..];
  }

  /** The first field only grows. */
  lemma FirstFieldGrows(head: Bytes, more: Bytes)
    requires NEWLINE !in head
    ensures |Split(head + more, NEWLINE)[0]| >= |head|
  {
    SplitFree(head, NEWLINE);
    SplitPlus(head, more, NEWLINE);
    GlueIs([head], Split(more, NEWLINE));
  }

  /** Once a line is too long it stays too long. */
  lemma TooLongStays(maxLine: nat, content: Bytes, more: Bytes)
    ensures var fields, next := Split(content, NEWLINE), Split(Last(Split(content, NEWLINE)) + more, NEWLINE);
            Within(maxLine, Split(content + more, NEWLINE)) <==> Within(maxLine, fields) && Within(maxLine, next)
  {
    hide Split;
    var fields := Split(content, NEWLINE);
    var last := Last(fields);
    var next, all := Split(last + more, NEWLINE), Split(content + more, NEWLINE);
    SplitMore(content, more);
    FieldsFree(content, NEWLINE, |fields| - 1);
    FirstFieldGrows(last, more);
    var n := |fields| - 1;
    assert all[..n] == Init(fields) && all[n..] == next && fields == Init(fields) + [last];
    if Within(maxLine, all) {
      assert |all[n]| <= maxLine && all[n] == next[0];
      assert forall i :: 0 <= i < |next| ==> next[i] == all[n + i];
      assert forall i :: 0 <= i < n ==> fields[i] == all[i];
    }
    if Within(maxLine, fields) && Within(maxLine, next) {
      forall i | 0 <= i < |all| ensures |all[i]| <= maxLine {
        if i < n { assert all[i] == fields[i]; } else { assert all[i] == next[i - n]; }
      }
    }
  }
}
