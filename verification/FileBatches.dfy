/** What the batches emitted for a file contain. */
module FileBatches {
  import opened Prelude
  import opened LineSplitting
  import opened LineBatches
  import opened FileSplitting

  /** The lines of the batches, one batch after the other. */
  function LinesIn(bs: seq<LineBatch>): seq<Bytes> {
    if bs == [] then [] else LinesIn(bs[..|bs| - 1]) + bs[|bs| - 1].lines
  }

  /** Predicted packet size of a batch of the given file type: packet header and serialized batch. */
  function Predicted(fileType: nat, b: LineBatch): nat {
    (if fileType == ACCOUNTS then ADDRESSED_HEADER_SIZE else HEADER_SIZE) + |BatchBytes(b)|
  }

  function Outs(edge: Edge, bs: seq<LineBatch>): seq<Output> {
    seq(|bs|, i requires 0 <= i < |bs| => DataOut(edge, bs[i]))
  }

  /** Batch `i` carries its id, the header and the number of its first line; two lines or more fit the limit. */
  ghost predicate BatchAt(cfg: Config, key: FileKey, fileType: nat, header: seq<Bytes>, bs: seq<LineBatch>, i: nat)
    requires i < |bs|
  {
    && bs[i].lines != []
    && bs[i] == LineBatch(fileType, key.relPath, i, |LinesIn(bs[..i])| + 2, header, bs[i].lines)
    && (|bs[i].lines| >= 2 ==> Predicted(fileType, bs[i]) <= cfg.maxBatch)
  }

  ghost predicate Batched(cfg: Config, key: FileKey, fileType: nat, header: seq<Bytes>, bs: seq<LineBatch>) {
    forall i :: 0 <= i < |bs| ==> BatchAt(cfg, key, fileType, header, bs, i)
  }

  /** A batch was closed because the next line would have taken it over the limit. */
  ghost predicate Packed(cfg: Config, fileType: nat, bs: seq<LineBatch>, rest: seq<Bytes>) {
    && (forall i :: 0 <= i < |bs| - 1 && bs[i + 1].lines != [] ==>
          Predicted(fileType, bs[i]) + 4 + |bs[i + 1].lines[0]| > cfg.maxBatch)
    && (bs != [] && rest != [] ==> Predicted(fileType, bs[|bs| - 1]) + 4 + |rest[0]| > cfg.maxBatch)
  }

  function Bumped(counts: map<nat, nat>, client: nat, n: nat): map<nat, nat> {
    if n == 0 then counts else Bump(Bumped(counts, client, n - 1), client)
  }

  /** The state after the header and `data` have been processed, `bs` being the batches emitted so far. */
  ghost predicate Shape(cfg: Config, key: FileKey, fileType: nat, header: seq<Bytes>, counts: map<nat, nat>,
                        data: seq<Bytes>, bs: seq<LineBatch>, w: Work) {
    && w.core == Core(Some(fileType), Some(header), w.core.lines, w.core.firstLine, ItemsSize(w.core.lines),
                      |bs|, |data| + 1, |LinesIn(bs)|, |bs|)
    && w.out == Outs(EdgeOf(w.core), bs)
    && w.counts == (if fileType == ACCOUNTS then Bumped(counts, key.client, |bs|) else counts)
    && LinesIn(bs) + w.core.lines == data
    && Batched(cfg, key, fileType, header, bs) && Packed(cfg, fileType, bs, w.core.lines)
    && (w.core.lines != [] ==> w.core.firstLine == |LinesIn(bs)| + 2)
    && (|w.core.lines| >= 2 ==> PacketSize(key, w.core, 0) <= cfg.maxBatch)
  }

  lemma SizesAgree(key: FileKey, c: Core)
    requires c.fileType.Some? && c.header.Some? && c.payloadBytes == ItemsSize(c.lines)
    ensures PacketSize(key, c, 0) == Predicted(c.fileType.value, BatchOf(key, c))
  {
    BatchSize(BatchOf(key, c));
  }

  lemma BatchedSnoc(cfg: Config, key: FileKey, fileType: nat, header: seq<Bytes>, bs: seq<LineBatch>, b: LineBatch)
    requires Batched(cfg, key, fileType, header, bs) && b.lines != []
    requires b == LineBatch(fileType, key.relPath, |bs|, |LinesIn(bs)| + 2, header, b.lines)
    requires |b.lines| >= 2 ==> Predicted(fileType, b) <= cfg.maxBatch
    ensures Batched(cfg, key, fileType, header, bs + [b])
  {
    hide LinesIn, BatchBytes;
    var more := bs + [b];
    forall i | 0 <= i < |more| ensures BatchAt(cfg, key, fileType, header, more, i) {
      assert more[..i] == if i < |bs| then bs[..i] else bs;
      if i < |bs| { assert BatchAt(cfg, key, fileType, header, bs, i); }
    }
  }

  /** Flushing moves the collected lines into a new batch. */
  lemma FlushShape(cfg: Config, key: FileKey, fileType: nat, header: seq<Bytes>, counts: map<nat, nat>,
                   data: seq<Bytes>, bs: seq<LineBatch>, w: Work)
    requires Shape(cfg, key, fileType, header, counts, data, bs, w) && w.core.lines != []
    ensures var b := BatchOf(key, w.core);
            Shape(cfg, key, fileType, header, counts, data, bs + [b], Flushed(key, w)) && b.lines == w.core.lines
            && Predicted(fileType, b) == PacketSize(key, w.core, 0)
  {
    hide BatchBytes, PacketSize, Predicted, LinesIn, ItemsSize, Batched, Packed, Outs, Bumped;
    var b, f := BatchOf(key, w.core), Flushed(key, w);
    SizesAgree(key, w.core);
    BatchedSnoc(cfg, key, fileType, header, bs, b);
    LinesSnoc(bs, b);
    assert LinesIn(bs + [b]) + [] == LinesIn(bs + [b]);
    OutsSnoc(EdgeOf(w.core), bs, b);
    PackedSnoc(cfg, fileType, bs, b);
    BumpedSnoc(counts, key.client, |bs|);
    NoItems();
  }

  lemma LinesSnoc(bs: seq<LineBatch>, b: LineBatch)
    ensures LinesIn(bs + [b]) == LinesIn(bs) + b.lines
  {
    assert (bs + [b])[..|bs|] == bs;
  }

  lemma OutsSnoc(edge: Edge, bs: seq<LineBatch>, b: LineBatch)
    ensures Outs(edge, bs + [b]) == Outs(edge, bs) + [DataOut(edge, b)]
  {
  }

  lemma PackedSnoc(cfg: Config, fileType: nat, bs: seq<LineBatch>, b: LineBatch)
    requires Packed(cfg, fileType, bs, b.lines)
    ensures Packed(cfg, fileType, bs + [b], [])
  {
    hide Predicted;
  }

  lemma PackedJoin(cfg: Config, fileType: nat, bs: seq<LineBatch>, rest: seq<Bytes>, line: Bytes)
    requires Packed(cfg, fileType, bs, rest)
    requires bs != [] && rest == [] ==> Predicted(fileType, bs[|bs| - 1]) + 4 + |line| > cfg.maxBatch
    ensures Packed(cfg, fileType, bs, rest + [line])
  {
    hide Predicted;
  }

  lemma BumpedSnoc(counts: map<nat, nat>, client: nat, n: nat)
    ensures Bumped(counts, client, n + 1) == Bump(Bumped(counts, client, n), client)
  {
  }

  lemma NoItems()
    ensures ItemsSize([]) == 0
  {
  }

  lemma ItemsSizeSnoc(items: seq<Bytes>, x: Bytes)
    ensures ItemsSize(items + [x]) == ItemsSize(items) + 4 + |x|
  {
    assert (items + [x])[..|items|] == items;
  }

  lemma PacketSizeGrows(key: FileKey, c: Core, extra: nat)
    ensures PacketSize(key, c, extra) == PacketSize(key, c, 0) + extra
    ensures PacketSize(key, c.(payloadBytes := c.payloadBytes + extra), 0) == PacketSize(key, c, extra)
  {
  }

  lemma SizeOf(key: FileKey, a: Core, b: Core, extra: nat)
    requires a.fileType == b.fileType && a.header == b.header && a.payloadBytes == b.payloadBytes
    ensures PacketSize(key, a, extra) == PacketSize(key, b, extra)
  {
  }

  /** A line that joins the collected ones without overflow. */
  lemma JoinShape(cfg: Config, key: FileKey, fileType: nat, header: seq<Bytes>, counts: map<nat, nat>,
                  data: seq<Bytes>, bs: seq<LineBatch>, w: Work, line: Bytes)
    requires Shape(cfg, key, fileType, header, counts, data, bs, w)
    requires w.core.lines != [] ==> PacketSize(key, w.core, 4 + |line|) <= cfg.maxBatch
    requires bs != [] && w.core.lines == [] ==> Predicted(fileType, bs[|bs| - 1]) + 4 + |line| > cfg.maxBatch
    ensures var seen := w.core.(linesSeen := w.core.linesSeen + 1);
            Shape(cfg, key, fileType, header, counts, data + [line], bs, w.(core := Joining(seen, line)))
  {
    hide PacketSize, Predicted, LinesIn, Batched, Packed, Outs, Bumped, ItemsSize;
    var seen := w.core.(linesSeen := w.core.linesSeen + 1);
    var next := Joining(seen, line);
    ItemsSizeSnoc(w.core.lines, line);
    NoItems();
    PackedJoin(cfg, fileType, bs, w.core.lines, line);
    assert LinesIn(bs) + (w.core.lines + [line]) == data + [line];
    assert w.core.lines + [line] == next.lines;
    if w.core.lines != [] {
      PacketSizeGrows(key, w.core, 4 + |line|);
      SizeOf(key, next, w.core.(payloadBytes := w.core.payloadBytes + (4 + |line|)), 0);
    }
  }

  /** Flushing does not look at the number of lines seen. */
  lemma FlushedSeen(key: FileKey, w: Work, n: nat)
    ensures Flushed(key, w.(core := w.core.(linesSeen := n))) ==
            var f := Flushed(key, w); f.(core := f.core.(linesSeen := n))
  {
  }

  lemma ShapeCore(cfg: Config, key: FileKey, fileType: nat, header: seq<Bytes>, counts: map<nat, nat>,
                  data: seq<Bytes>, bs: seq<LineBatch>, w: Work)
    requires Shape(cfg, key, fileType, header, counts, data, bs, w)
    ensures w.core.fileType == Some(fileType) && w.core.header == Some(header) && w.core.emitted == |LinesIn(bs)|
    ensures w.core.lines == [] ==> LinesIn(bs) == data
    ensures w.out == Outs(if fileType == ACCOUNTS then ACCOUNTS_EDGE else LINE_BATCH, bs)
    ensures fileType == ACCOUNTS ==> Get(w.counts, key.client, 0) == Get(counts, key.client, 0) + |bs|
    ensures Batched(cfg, key, fileType, header, bs) && Packed(cfg, fileType, bs, w.core.lines)
  {
    hide Batched, Packed, PacketSize, LinesIn, ItemsSize, Bumped;
    BumpedAt(counts, key.client, |bs|);
    assert LinesIn(bs) + [] == LinesIn(bs);
  }

  lemma JoiningLines(c: Core, line: Bytes)
    ensures Joining(c, line).lines != []
  {
  }

  lemma LineShape(cfg: Config, key: FileKey, fileType: nat, header: seq<Bytes>, counts: map<nat, nat>,
                  data: seq<Bytes>, bs: seq<LineBatch>, w: Work, line: Bytes) returns (bs2: seq<LineBatch>)
    requires Shape(cfg, key, fileType, header, counts, data, bs, w) && !Muted(cfg, w.core)
    requires w.core.lines == [] ==> bs == []
    ensures Lined(cfg, key, w, line).Ok? && Lined(cfg, key, w, line).value.core.lines != []
    ensures Shape(cfg, key, fileType, header, counts, data + [line], bs2, Lined(cfg, key, w, line).value)
  {
    hide Shape, PacketSize, Predicted, Flushed, LinesIn, Joining;
    ShapeCore(cfg, key, fileType, header, counts, data, bs, w);
    var n := w.core.linesSeen + 1;
    var seen := w.(core := w.core.(linesSeen := n));
    SizeOf(key, seen.core, w.core, 4 + |line|);
    FlushedSeen(key, w, n);
    if Overflows(cfg, key, w.core, line) {
      FlushShape(cfg, key, fileType, header, counts, data, bs, w);
      FlushedLines(key, w);
      PacketSizeGrows(key, w.core, 4 + |line|);
      bs2 := bs + [BatchOf(key, w.core)];
      JoinShape(cfg, key, fileType, header, counts, data, bs2, Flushed(key, w), line);
      JoiningLines(Flushed(key, w).core.(linesSeen := n), line);
    } else {
      bs2 := bs;
      JoiningLines(seen.core, line);
      JoinShape(cfg, key, fileType, header, counts, data, bs, w, line);
    }
  }

  lemma FlushedNothing(key: FileKey, w: Work)
    requires w.core.lines == []
    ensures Flushed(key, w) == w
  {
  }

  lemma FlushedLines(key: FileKey, w: Work)
    ensures Flushed(key, w).core.lines == [] && Flushed(key, w).core.linesSeen == w.core.linesSeen
  {
  }

  lemma HeaderShape(cfg: Config, key: FileKey, fileType: nat, header: seq<Bytes>, counts: map<nat, nat>, line: Bytes)
    requires cfg.csv(Clean(line)) == Some(header) && !(fileType == ACCOUNTS && !cfg.accountsEnabled)
    ensures var r := Lined(cfg, key, Opened(fileType, counts), line);
            r.Ok? && r.value.core.lines == [] && Shape(cfg, key, fileType, header, counts, [], [], r.value)
  {
    hide PacketSize;
    var w1 := Lined(cfg, key, Opened(fileType, counts), line).value;
    assert w1.out == Outs(EdgeOf(w1.core), []);
    NoItems();
  }

  lemma AllLinedLast(cfg: Config, key: FileKey, w: Work, lines: seq<Bytes>)
    requires lines != []
    ensures var before := AllLined(cfg, key, w, lines[..|lines| - 1]);
            AllLined(cfg, key, w, lines) ==
            if before.Err? then Err else Lined(cfg, key, before.value, lines[|lines| - 1])
  {
  }

  lemma LinedState(cfg: Config, key: FileKey, fileType: nat, header: seq<Bytes>, counts: map<nat, nat>,
                   data: seq<Bytes>, bs: seq<LineBatch>, w: Work)
    requires Shape(cfg, key, fileType, header, counts, data, bs, w) && !(fileType == ACCOUNTS && !cfg.accountsEnabled)
    ensures !Muted(cfg, w.core)
  {
  }

  /** The header and the data lines after it have been processed, with `bs` emitted. */
  ghost predicate Processed(cfg: Config, key: FileKey, fileType: nat, header: seq<Bytes>, counts: map<nat, nat>,
                            lines: seq<Bytes>, bs: seq<LineBatch>) {
    var r := AllLined(cfg, key, Opened(fileType, counts), lines);
    && lines != [] && r.Ok? && (r.value.core.lines == [] ==> bs == [])
    && Shape(cfg, key, fileType, header, counts, lines[1..], bs, r.value)
  }

  lemma ProcessedHeader(cfg: Config, key: FileKey, fileType: nat, header: seq<Bytes>, counts: map<nat, nat>,
                        line: Bytes)
    requires cfg.csv(Clean(line)) == Some(header) && !(fileType == ACCOUNTS && !cfg.accountsEnabled)
    ensures Processed(cfg, key, fileType, header, counts, [line], [])
  {
    hide Shape, Lined, Opened, AllLined, Clean;
    AllLinedLast(cfg, key, Opened(fileType, counts), [line]);
    HeaderShape(cfg, key, fileType, header, counts, line);
    assert [line][..0] == [] && [line][1..] == [];
    NoLines(cfg, key, Opened(fileType, counts));
  }

  lemma ProcessedMore(cfg: Config, key: FileKey, fileType: nat, header: seq<Bytes>, counts: map<nat, nat>,
                      lines: seq<Bytes>, bs: seq<LineBatch>, line: Bytes) returns (bs2: seq<LineBatch>)
    requires Processed(cfg, key, fileType, header, counts, lines, bs) && !(fileType == ACCOUNTS && !cfg.accountsEnabled)
    ensures Processed(cfg, key, fileType, header, counts, lines + [line], bs2)
  {
    hide Shape, Lined, Opened, AllLined, Muted;
    var w0 := Opened(fileType, counts);
    var w := AllLined(cfg, key, w0, lines).value;
    LinedState(cfg, key, fileType, header, counts, lines[1..], bs, w);
    bs2 := LineShape(cfg, key, fileType, header, counts, lines[1..], bs, w, line);
    assert (lines + [line])[..|lines|] == lines && (lines + [line])[1..] == lines[1..] + [line];
    AllLinedLast(cfg, key, w0, lines + [line]);
  }

  /** After the header and some data lines. */
  lemma {:induction false} LinesShape(cfg: Config, key: FileKey, fileType: nat, header: seq<Bytes>,
                                      counts: map<nat, nat>, lines: seq<Bytes>)
    returns (bs: seq<LineBatch>)
    requires lines != [] && cfg.csv(Clean(lines[0])) == Some(header) && !(fileType == ACCOUNTS && !cfg.accountsEnabled)
    ensures Processed(cfg, key, fileType, header, counts, lines, bs)
    decreases |lines|
  {
    hide Processed, Clean;
    if |lines| == 1 {
      bs := [];
      ProcessedHeader(cfg, key, fileType, header, counts, lines[0]);
      assert lines == [lines[0]];
    } else {
      var init, last := lines[..|lines| - 1], lines[|lines| - 1];
      var before := LinesShape(cfg, key, fileType, header, counts, init);
      bs := ProcessedMore(cfg, key, fileType, header, counts, init, before, last);
      assert init + [last] == lines;
    }
  }

  lemma {:induction false} BumpedAt(counts: map<nat, nat>, client: nat, n: nat)
    ensures Get(Bumped(counts, client, n), client, 0) == Get(counts, client, 0) + n
  {
    if n > 0 { BumpedAt(counts, client, n - 1); }
  }

  function EofOf(fileType: nat, key: FileKey, counts: map<nat, nat>, lines: seq<Bytes>,
                 bs: seq<LineBatch>): seq<Output> {
    if fileType == TRANSACTIONS then [EofOut(LINE_BATCH, if lines == [] then 0 else |lines| - 1)]
    else if fileType == ACCOUNTS then [EofOut(ACCOUNTS_EDGE, Get(counts, key.client, 0) + |bs|)]
    else []
  }

  lemma ClosingShape(cfg: Config, key: FileKey, fileType: nat, header: seq<Bytes>, counts: map<nat, nat>,
                     lines: seq<Bytes>, bs: seq<LineBatch>, w: Work) returns (all: seq<LineBatch>)
    requires lines != [] && !(fileType == ACCOUNTS && !cfg.accountsEnabled)
    requires Shape(cfg, key, fileType, header, counts, lines[1..], bs, w)
    ensures Batched(cfg, key, fileType, header, all) && Packed(cfg, fileType, all, []) && LinesIn(all) == lines[1..]
    ensures Closing(cfg, key, w).out == Outs(if fileType == ACCOUNTS then ACCOUNTS_EDGE else LINE_BATCH, all)
                                        + EofOf(fileType, key, counts, lines, all)
  {
    hide Shape, Batched, Packed, Flushed, LinesIn;
    all := bs;
    FlushedLines(key, w);
    if w.core.lines == [] {
      FlushedNothing(key, w);
    } else {
      FlushShape(cfg, key, fileType, header, counts, lines[1..], bs, w);
      all := bs + [BatchOf(key, w.core)];
    }
    var f := Flushed(key, w);
    ShapeCore(cfg, key, fileType, header, counts, lines[1..], all, f);
    assert f.out + [] == f.out;
  }

  /** Line `j` of a batch is the file's line number `firstLineNumber + j`, counting from 1. */
  ghost predicate NumberedAt(lines: seq<Bytes>, b: LineBatch, j: nat)
    requires j < |b.lines|
  {
    1 <= b.firstLineNumber + j <= |lines| && b.lines[j] == lines[b.firstLineNumber + j - 1]
  }

  ghost predicate Numbered(lines: seq<Bytes>, bs: seq<LineBatch>) {
    forall i, j :: 0 <= i < |bs| && 0 <= j < |bs[i].lines| ==> NumberedAt(lines, bs[i], j)
  }

  lemma {:induction false} LinesInAt(bs: seq<LineBatch>, i: nat, j: nat)
    requires i < |bs| && j < |bs[i].lines|
    ensures |LinesIn(bs[..i])| + j < |LinesIn(bs)| && LinesIn(bs)[|LinesIn(bs[..i])| + j] == bs[i].lines[j]
  {
    var n := |bs| - 1;
    if i < n {
      LinesInAt(bs[..n], i, j);
      assert bs[..n][..i] == bs[..i];
    }
  }

  lemma BatchedNumbered(cfg: Config, key: FileKey, fileType: nat, header: seq<Bytes>, lines: seq<Bytes>,
                        bs: seq<LineBatch>)
    requires lines != [] && Batched(cfg, key, fileType, header, bs) && LinesIn(bs) == lines[1..]
    ensures Numbered(lines, bs)
  {
    hide Predicted, LinesIn;
    forall i, j | 0 <= i < |bs| && 0 <= j < |bs[i].lines|
      ensures NumberedAt(lines, bs[i], j)
    {
      assert BatchAt(cfg, key, fileType, header, bs, i);
      LinesInAt(bs, i, j);
      var n := |LinesIn(bs[..i])|;
      assert bs[i].firstLineNumber == n + 2;
      assert lines[1..][n + j] == lines[n + j + 1];
    }
  }

  /** A header line means the same with the carriage return of a CRLF file and without it; only one is dropped. */
  lemma HeaderLineEndings(cfg: Config, key: FileKey, w: Work, line: Bytes)
    requires w.core.header.None? && (line == [] || line[|line| - 1] != 13)
    ensures Lined(cfg, key, w, line + [13]) == Lined(cfg, key, w, line)
    ensures !Muted(cfg, w.core) && cfg.csv(line + [13]).Some? ==>
            var r := Lined(cfg, key, w, line + [13, 13]); r.Ok? && r.value.core.header == cfg.csv(line + [13])
  {
    assert (line + [13])[..|line|] == line;
    assert (line + [13, 13])[..|line| + 1] == line + [13];
  }

  /** The outputs of a file that is empty or starts with a parseable header: its data lines in order, each in one batch
      under its own line number, batches numbered from 0, cut only where the next line would not have fitted; then the
      end of stream with the number of data lines (of batches, for accounts). */
  lemma FileBatchesAreExact(cfg: Config, key: FileKey, fileType: nat, counts: map<nat, nat>, content: Bytes)
    returns (bs: seq<LineBatch>)
    requires Within(cfg.maxLine, Split(content, NEWLINE))
    requires FileLines(content) == [] || cfg.csv(Clean(FileLines(content)[0])).Some?
    requires !(fileType == ACCOUNTS && !cfg.accountsEnabled)
    ensures var w, lines := FileWork(cfg, key, fileType, counts, content), FileLines(content);
            && w.Ok?
            && w.value.out == Outs(if fileType == ACCOUNTS then ACCOUNTS_EDGE else LINE_BATCH, bs)
                              + EofOf(fileType, key, counts, lines, bs)
            && (lines == [] ==> bs == [])
            && (lines != [] ==>
                  && LinesIn(bs) == lines[1..] && Numbered(lines, bs)
                  && Batched(cfg, key, fileType, cfg.csv(Clean(lines[0])).value, bs) && Packed(cfg, fileType, bs, []))
  {
    var lines := FileLines(content);
    if lines == [] {
      bs := [];
      NoLines(cfg, key, Opened(fileType, counts));
      assert Outs(if fileType == ACCOUNTS then ACCOUNTS_EDGE else LINE_BATCH, bs) == [];
    } else {
      hide Split, FileLines, AllLined, Closing, Shape, Batched, Packed, Numbered;
      var header := cfg.csv(Clean(lines[0])).value;
      var part := LinesShape(cfg, key, fileType, header, counts, lines);
      var w := AllLined(cfg, key, Opened(fileType, counts), lines).value;
      bs := ClosingShape(cfg, key, fileType, header, counts, lines, part, w);
      BatchedNumbered(cfg, key, fileType, header, lines, bs);
    }
  }

  lemma {:induction false} HeaderDecides(cfg: Config, key: FileKey, fileType: nat, counts: map<nat, nat>,
                                         lines: seq<Bytes>)
    requires !(fileType == ACCOUNTS && !cfg.accountsEnabled)
    ensures AllLined(cfg, key, Opened(fileType, counts), lines).Ok? <==> lines == [] || cfg.csv(Clean(lines[0])).Some?
  {
    if lines != [] {
      if cfg.csv(Clean(lines[0])).Some? {
        var bs := LinesShape(cfg, key, fileType, cfg.csv(Clean(lines[0])).value, counts, lines);
      } else {
        AllLinedPlus(cfg, key, Opened(fileType, counts), [lines[0]], lines[1..]);
        assert [lines[0]] + lines[1..] == lines;
        assert AllLined(cfg, key, Opened(fileType, counts), [lines[0]]).Err? by {
          assert [lines[0]][..0] == lines[..0];
          assert AllLined(cfg, key, Opened(fileType, counts), []) == Ok(Opened(fileType, counts));
        }
      }
    }
  }

  /** A file is refused exactly when a line is too long or its first line is no CSV row. */
  lemma RefusedExactly(cfg: Config, key: FileKey, fileType: nat, counts: map<nat, nat>, content: Bytes)
    requires !(fileType == ACCOUNTS && !cfg.accountsEnabled)
    ensures FileWork(cfg, key, fileType, counts, content).Ok? <==>
            Within(cfg.maxLine, Split(content, NEWLINE)) &&
            (FileLines(content) == [] || cfg.csv(Clean(FileLines(content)[0])).Some?)
  {
    hide AllLined, Split, FileLines, Within, Closing;
    HeaderDecides(cfg, key, fileType, counts, FileLines(content));
  }

  lemma {:induction false} MutedLines(cfg: Config, key: FileKey, counts: map<nat, nat>, lines: seq<Bytes>)
    requires !cfg.accountsEnabled
    ensures AllLined(cfg, key, Opened(ACCOUNTS, counts), lines) ==
            Ok(Work(WithType(NEW_CORE, ACCOUNTS).(linesSeen := |lines|), counts, []))
  {
    if lines != [] {
      MutedLines(cfg, key, counts, lines[..|lines| - 1]);
    }
  }

  /** Account files produce nothing where accounts are disabled. */
  lemma MutedFile(cfg: Config, key: FileKey, counts: map<nat, nat>, content: Bytes)
    requires !cfg.accountsEnabled && Within(cfg.maxLine, Split(content, NEWLINE))
    ensures var w := FileWork(cfg, key, ACCOUNTS, counts, content);
            w.Ok? && w.value.out == [] && w.value.counts == counts
  {
    hide AllLined, Split;
    MutedLines(cfg, key, counts, FileLines(content));
  }

  /** Every edge of the splitter is addressed, so this is the size of the packet that is sent. */
  function Sent(b: LineBatch): nat { ADDRESSED_HEADER_SIZE + |BatchBytes(b)| }

  /** For account files the sent size is the one the batcher reckoned with, for all others eight bytes more. A batch
      of two lines or more keeps the limit exactly when it is of an account file or those bytes were left. */
  lemma SentPacketFitsExactly(cfg: Config, key: FileKey, fileType: nat, header: seq<Bytes>, bs: seq<LineBatch>, i: nat)
    requires Batched(cfg, key, fileType, header, bs) && i < |bs|
    ensures Sent(bs[i]) == Predicted(fileType, bs[i]) + if fileType == ACCOUNTS then 0 else 8
    ensures |bs[i].lines| >= 2 ==>
              (Sent(bs[i]) <= cfg.maxBatch <==> fileType == ACCOUNTS || Predicted(fileType, bs[i]) + 8 <= cfg.maxBatch)
  {
    assert BatchAt(cfg, key, fileType, header, bs, i);
  }

  /** Output `i` of a file with these lines, if it is a batch of two lines or more, is sent within the limit. */
  ghost predicate FitsWhenSent(cfg: Config, key: FileKey, fileType: nat, counts: map<nat, nat>, lines: seq<Bytes>,
                               i: nat) {
    var w := AllLined(cfg, key, Opened(fileType, counts), lines);
    w.Ok? ==>
      var out := Closing(cfg, key, w.value).out;
      i < |out| && out[i].DataOut? && |out[i].batch.lines| >= 2 ==> Sent(out[i].batch) <= cfg.maxBatch
  }

  /** The limit is kept by every batch of two lines or more, whatever the limit, exactly for account files. */
  lemma LimitKeptExactlyForAccounts(fileType: nat)
    ensures fileType == ACCOUNTS <==>
            forall cfg, key, counts, lines, i :: FitsWhenSent(cfg, key, fileType, counts, lines, i)
  {
    if fileType == ACCOUNTS {
      forall cfg, key, counts, lines, i ensures FitsWhenSent(cfg, key, ACCOUNTS, counts, lines, i) {
        AccountsFit(cfg, key, counts, lines, i);
      }
    } else {
      var cfg := Config(1, 0, true, _ => Some([]));
      var tight := SentPacketOverLimit(cfg, FileKey(0, []), fileType, map[], [[], [], []]);
      assert !FitsWhenSent(tight, FileKey(0, []), fileType, map[], [[], [], []], 0);
    }
  }

  lemma AccountsFit(cfg: Config, key: FileKey, counts: map<nat, nat>, lines: seq<Bytes>, i: nat)
    ensures FitsWhenSent(cfg, key, ACCOUNTS, counts, lines, i)
  {
    var w := AllLined(cfg, key, Opened(ACCOUNTS, counts), lines);
    if !cfg.accountsEnabled {
      MutedLines(cfg, key, counts, lines);
    } else if w.Ok? && lines != [] {
      HeaderDecides(cfg, key, ACCOUNTS, counts, lines);
      var header := cfg.csv(Clean(lines[0])).value;
      hide AllLined, Closing, Shape, Batched, Packed, BatchBytes, Clean;
      var part := LinesShape(cfg, key, ACCOUNTS, header, counts, lines);
      var bs := ClosingShape(cfg, key, ACCOUNTS, header, counts, lines, part, w.value);
      if i < |bs| { SentPacketFitsExactly(cfg, key, ACCOUNTS, header, bs, i); }
    }
  }

  /** Outside account files, for every header and every two data lines there is a limit under which the two lines go
      out as one batch whose packet is over the limit by eight bytes. */
  lemma SentPacketOverLimit(cfg: Config, key: FileKey, fileType: nat, counts: map<nat, nat>, lines: seq<Bytes>)
    returns (tight: Config)
    requires fileType != ACCOUNTS && |lines| == 3 && cfg.csv(Clean(lines[0])).Some?
    ensures tight == cfg.(maxBatch := tight.maxBatch)
    ensures var w := AllLined(tight, key, Opened(fileType, counts), lines);
            && w.Ok? && Closing(tight, key, w.value).out != []
            && var first := Closing(tight, key, w.value).out[0];
               first.DataOut? && first.batch.lines == lines[1..] && Sent(first.batch) == tight.maxBatch + 8
  {
    var header := cfg.csv(Clean(lines[0])).value;
    var b := LineBatch(fileType, key.relPath, 0, 2, header, lines[1..]);
    tight := cfg.(maxBatch := Predicted(fileType, b));
    hide AllLined, BatchBytes;
    TwoLines(tight, key, fileType, counts, header, lines);
  }

  lemma TwoLines(cfg: Config, key: FileKey, fileType: nat, counts: map<nat, nat>, header: seq<Bytes>, lines: seq<Bytes>)
    requires fileType != ACCOUNTS && |lines| == 3 && cfg.csv(Clean(lines[0])) == Some(header)
    requires cfg.maxBatch == Predicted(fileType, LineBatch(fileType, key.relPath, 0, 2, header, lines[1..]))
    ensures AllLined(cfg, key, Opened(fileType, counts), lines) ==
            Ok(Work(Core(Some(fileType), Some(header), lines[1..], 2, ItemsSize(lines[1..]), 0, 3, 0, 0), counts, []))
  {
    var w0, data := Opened(fileType, counts), lines[1..];
    var core := Core(Some(fileType), Some(header), [], 0, 0, 0, 1, 0, 0);
    var w1 := Work(core, counts, []);
    var w2 := Work(core.(linesSeen := 2, firstLine := 2, lines := [data[0]], payloadBytes := 4 + |data[0]|), counts,
                   []);
    FirstTwo(cfg, key, fileType, counts, header, lines);
    ThirdLine(cfg, key, fileType, counts, header, data);
    hide Lined;
    LinedThree(cfg, key, w0, lines, w1, w2);
  }

  lemma FirstTwo(cfg: Config, key: FileKey, fileType: nat, counts: map<nat, nat>, header: seq<Bytes>, lines: seq<Bytes>)
    requires fileType != ACCOUNTS && |lines| == 3 && cfg.csv(Clean(lines[0])) == Some(header)
    ensures var core := Core(Some(fileType), Some(header), [], 0, 0, 0, 1, 0, 0);
            && Lined(cfg, key, Opened(fileType, counts), lines[0]) == Ok(Work(core, counts, []))
            && Lined(cfg, key, Work(core, counts, []), lines[1]) ==
               Ok(Work(core.(linesSeen := 2, firstLine := 2, lines := [lines[1]], payloadBytes := 4 + |lines[1]|),
                       counts, []))
  {
    hide PacketSize, Clean;
  }

  lemma ThirdLine(cfg: Config, key: FileKey, fileType: nat, counts: map<nat, nat>, header: seq<Bytes>, data: seq<Bytes>)
    requires fileType != ACCOUNTS && |data| == 2
    requires cfg.maxBatch == Predicted(fileType, LineBatch(fileType, key.relPath, 0, 2, header, data))
    ensures var core := Core(Some(fileType), Some(header), [data[0]], 2, 4 + |data[0]|, 0, 2, 0, 0);
            Lined(cfg, key, Work(core, counts, []), data[1]) ==
            Ok(Work(core.(linesSeen := 3, lines := data, payloadBytes := ItemsSize(data)), counts, []))
  {
    BatchSize(LineBatch(fileType, key.relPath, 0, 2, header, data));
    NoItems();
    ItemsSizeSnoc([], data[0]);
    ItemsSizeSnoc([data[0]], data[1]);
    assert data == [data[0]] + [data[1]] && [] + [data[0]] == [data[0]];
    hide ItemsSize, BatchBytes;
  }

  lemma LinedThree(cfg: Config, key: FileKey, w0: Work, lines: seq<Bytes>, w1: Work, w2: Work)
    requires |lines| == 3
    requires Lined(cfg, key, w0, lines[0]) == Ok(w1) && Lined(cfg, key, w1, lines[1]) == Ok(w2)
    ensures AllLined(cfg, key, w0, lines) == Lined(cfg, key, w2, lines[2])
  {
    hide Lined;
    assert lines[..2][..1] == lines[..1] && lines[..1][..0] == [];
    assert AllLined(cfg, key, w0, []) == Ok(w0);
    assert AllLined(cfg, key, w0, lines[..1]) == Ok(w1);
    assert AllLined(cfg, key, w0, lines[..2]) == Ok(w2);
  }
}
