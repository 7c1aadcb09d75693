/** Turning the chunks of a file into size-bounded line batches, on values. */
module FileSplitting {
  import opened Prelude
  import opened LineSplitting
  import opened LineBatches

  const TRANSACTIONS: nat := 1
  const ACCOUNTS: nat := 2

  /** Sizes of the plain and the addressed packet header. */
  const HEADER_SIZE := 17
  const ADDRESSED_HEADER_SIZE := 25

  /** Limits, whether account files are emitted, and the CSV parser (`None`: it raises). */
  datatype Config = Config(maxLine: nat, maxBatch: int, accountsEnabled: bool, csv: Bytes -> Option<seq<Bytes>>)

  datatype FileKey = FileKey(client: nat, relPath: Bytes)

  datatype Edge = LINE_BATCH | ACCOUNTS_EDGE

  datatype Output =
    | DataOut(edge: Edge, batch: LineBatch)
    | EofOut(edge: Edge, total: nat)

  /** The batching half of a file's state. */
  datatype Core = Core(fileType: Option<nat>, header: Option<seq<Bytes>>, lines: seq<Bytes>, firstLine: nat,
                       payloadBytes: nat, batchId: nat, linesSeen: nat, emitted: nat, batches: nat)

  const NEW_CORE := Core(None, None, [], 0, 0, 0, 0, 0, 0)

  /** A file's state: intake and batching. */
  datatype FileView = FileView(splitter: Splitter, chunks: nat, bytes: nat, core: Core)

  /** What the batching code works on: the file's core, account batches per client, collected outputs. */
  datatype Work = Work(core: Core, counts: map<nat, nat>, out: seq<Output>)

  function NewFile(cfg: Config): FileView {
    FileView(Splitter(cfg.maxLine, 0, []), 0, 0, NEW_CORE)
  }

  function PacketSize(key: FileKey, c: Core, extra: nat): nat {
    (if c.fileType == Some(ACCOUNTS) then ADDRESSED_HEADER_SIZE else HEADER_SIZE) + FIXED_HEADER_SIZE + |key.relPath|
    + (if c.header.None? then 0 else ItemsSize(c.header.value)) + c.payloadBytes + extra
  }

  function EdgeOf(c: Core): Edge { if c.fileType == Some(ACCOUNTS) then ACCOUNTS_EDGE else LINE_BATCH }

  function BatchOf(key: FileKey, c: Core): LineBatch {
    LineBatch(if c.fileType.Some? then c.fileType.value else 0, key.relPath, c.batchId, c.firstLine,
              if c.header.Some? then c.header.value else [], c.lines)
  }

  function Bump(counts: map<nat, nat>, client: nat): map<nat, nat> {
    counts[client := Get(counts, client, 0) + 1]
  }

  function Flushed(key: FileKey, w: Work): Work {
    var c := w.core;
    if c.lines == [] then w
    else Work(c.(emitted := c.emitted + |c.lines|, batches := c.batches + 1, batchId := c.batchId + 1,
                 lines := [], firstLine := 0, payloadBytes := 0),
              if c.fileType == Some(ACCOUNTS) then Bump(w.counts, key.client) else w.counts,
              w.out + [DataOut(EdgeOf(c), BatchOf(key, c))])
  }

  predicate Overflows(cfg: Config, key: FileKey, c: Core, line: Bytes) {
    c.lines != [] && PacketSize(key, c, 4 + |line|) > cfg.maxBatch
  }

  function Joining(c: Core, line: Bytes): Core {
    if c.lines == [] then c.(firstLine := c.linesSeen, payloadBytes := 4 + |line|, lines := [line])
    else c.(payloadBytes := c.payloadBytes + 4 + |line|, lines := c.lines + [line])
  }

  function Accumulated(cfg: Config, key: FileKey, w: Work, line: Bytes): Work {
    var w1 := if Overflows(cfg, key, w.core, line) then Flushed(key, w) else w;
    w1.(core := Joining(w1.core, line))
  }

  /** Drops the carriage return a CRLF file leaves at the end of the header. */
  function Clean(line: Bytes): Bytes {
    if line != [] && line[|line| - 1] == 13 then line[..|line| - 1] else line
  }

  predicate Muted(cfg: Config, c: Core) { c.fileType == Some(ACCOUNTS) && !cfg.accountsEnabled }

  function Lined(cfg: Config, key: FileKey, w: Work, line: Bytes): Result<Work> {
    var w1 := w.(core := w.core.(linesSeen := w.core.linesSeen + 1));
    if Muted(cfg, w.core) then Ok(w1)
    else if w.core.header.None? then
      var h := cfg.csv(Clean(line));
      if h.None? then Err else Ok(w1.(core := w1.core.(header := h)))
    else Ok(Accumulated(cfg, key, w1, line))
  }

  /** The lines in order; an exception stops everything. */
  function AllLined(cfg: Config, key: FileKey, w: Work, lines: seq<Bytes>): Result<Work> {
    if lines == [] then Ok(w)
    else
      var before := AllLined(cfg, key, w, lines[..|lines| - 1]);
      if before.Err? then Err else Lined(cfg, key, before.value, lines[|lines| - 1])
  }

  /** Outcome of running a change on a file. */
  datatype FileRun = FileRun(file: FileView, counts: map<nat, nat>, out: seq<Output>)

  function WithType(c: Core, fileType: nat): Core {
    if c.fileType.None? then c.(fileType := Some(fileType)) else c
  }

  function Chunked(cfg: Config, key: FileKey, r: FileRun, fileType: nat, offset: nat, payload: Bytes): Result<FileRun> {
    var f := r.file;
    var pushed := Pushed(f.splitter, offset, payload);
    if pushed.Err? then Err
    else
      var w := AllLined(cfg, key, Work(WithType(f.core, fileType), r.counts, r.out), pushed.value.1);
      if w.Err? then Err
      else Ok(FileRun(FileView(pushed.value.0, f.chunks + 1, f.bytes + |payload|, w.value.core), w.value.counts,
                      w.value.out))
  }

  /** Last flush and the end-of-stream message. */
  function Closing(cfg: Config, key: FileKey, w: Work): Work {
    var f := Flushed(key, w);
    if f.core.fileType == Some(TRANSACTIONS) then f.(out := f.out + [EofOut(LINE_BATCH, f.core.emitted)])
    else if f.core.fileType == Some(ACCOUNTS) && cfg.accountsEnabled then
      f.(out := f.out + [EofOut(ACCOUNTS_EDGE, Get(f.counts, key.client, 0))], counts := Pop(f.counts, key.client))
    else f
  }

  function Finishing(cfg: Config, key: FileKey, r: FileRun): Result<FileRun> {
    var done := Finished(r.file.splitter);
    if done.Err? then Err
    else
      var w := AllLined(cfg, key, Work(r.file.core, r.counts, r.out), done.value.1);
      if w.Err? then Err
      else
        var c := Closing(cfg, key, w.value);
        Ok(FileRun(r.file.(splitter := done.value.0, core := c.core), c.counts, c.out))
  }

  /** A whole file: its chunks in order, each at the offset where the last one ended. */
  function RunChunks(cfg: Config, key: FileKey, fileType: nat, counts: map<nat, nat>,
                     chunks: seq<Bytes>): Result<FileRun> {
    if chunks == [] then Ok(FileRun(NewFile(cfg), counts, []))
    else
      var before := RunChunks(cfg, key, fileType, counts, chunks[..|chunks| - 1]);
      if before.Err? then Err
      else Chunked(cfg, key, before.value, fileType, before.value.file.splitter.offset, chunks[|chunks| - 1])
  }

  function RunFile(cfg: Config, key: FileKey, fileType: nat, counts: map<nat, nat>,
                   chunks: seq<Bytes>): Result<FileRun> {
    var r := RunChunks(cfg, key, fileType, counts, chunks);
    if r.Err? then Err else Finishing(cfg, key, r.value)
  }

  // ---------- chunking does not matter ----------

  lemma {:induction false} AllLinedPlus(cfg: Config, key: FileKey, w: Work, a: seq<Bytes>, b: seq<Bytes>)
    ensures AllLined(cfg, key, w, a + b) ==
            if AllLined(cfg, key, w, a).Err? then Err else AllLined(cfg, key, AllLined(cfg, key, w, a).value, b)
  {
    if b == [] {
      assert a + b == a;
    } else {
      assert (a + b)[..|a + b| - 1] == a + b[..|b| - 1];
      AllLinedPlus(cfg, key, w, a, b[..|b| - 1]);
    }
  }

  /** The core when the first line is processed. */
  function Opened(fileType: nat, counts: map<nat, nat>): Work {
    Work(WithType(NEW_CORE, fileType), counts, [])
  }

  lemma {:induction false} TypeStays(cfg: Config, key: FileKey, w: Work, lines: seq<Bytes>, fileType: nat)
    requires w.core.fileType.Some? && AllLined(cfg, key, w, lines).Ok?
    ensures AllLined(cfg, key, w, lines).value.core.fileType == w.core.fileType
    ensures WithType(AllLined(cfg, key, w, lines).value.core, fileType) == AllLined(cfg, key, w, lines).value.core
  {
    if lines != [] {
      hide PacketSize;
      TypeStays(cfg, key, w, lines[..|lines| - 1], fileType);
    }
  }

  /** What the chunks amount to depends on their concatenation only. */
  ghost predicate Amounts(cfg: Config, key: FileKey, fileType: nat, counts: map<nat, nat>, content: Bytes, n: nat,
                          r: Result<FileRun>) {
    var fields := Split(content, NEWLINE);
    var w := AllLined(cfg, key, Opened(fileType, counts), Init(fields));
    if Within(cfg.maxLine, fields) && w.Ok?
    then r == Ok(FileRun(FileView(Splitter(cfg.maxLine, |content|, Last(fields)), n, |content|, w.value.core),
                         w.value.counts, w.value.out))
    else r.Err?
  }

  lemma FirstChunk(cfg: Config, key: FileKey, fileType: nat, counts: map<nat, nat>, chunk: Bytes)
    ensures Amounts(cfg, key, fileType, counts, chunk, 1,
                    Chunked(cfg, key, FileRun(NewFile(cfg), counts, []), fileType, 0, chunk))
  {
    hide AllLined, Split;
    assert [] + chunk == chunk;
  }

  lemma NextChunk(cfg: Config, key: FileKey, fileType: nat, counts: map<nat, nat>, content: Bytes, n: nat, r: FileRun,
                  chunk: Bytes)
    requires Amounts(cfg, key, fileType, counts, content, n, Ok(r))
    ensures Amounts(cfg, key, fileType, counts, content + chunk, n + 1,
                    Chunked(cfg, key, r, fileType, r.file.splitter.offset, chunk))
  {
    hide AllLined, Split, Within;
    var fields := Split(content, NEWLINE);
    var next := Split(Last(fields) + chunk, NEWLINE);
    SplitMore(content, chunk);
    TooLongStays(cfg.maxLine, content, chunk);
    var w := Opened(fileType, counts);
    AllLinedPlus(cfg, key, w, Init(fields), Init(next));
    TypeStays(cfg, key, w, Init(fields), fileType);
    assert Init(Init(fields) + next) == Init(fields) + Init(next);
  }

  lemma FailureStays(cfg: Config, key: FileKey, fileType: nat, counts: map<nat, nat>, content: Bytes, n: nat,
                     chunk: Bytes)
    requires Amounts(cfg, key, fileType, counts, content, n, Err)
    ensures Amounts(cfg, key, fileType, counts, content + chunk, n + 1, Err)
  {
    hide AllLined, Split, Within;
    var fields := Split(content, NEWLINE);
    var next := Split(Last(fields) + chunk, NEWLINE);
    SplitMore(content, chunk);
    TooLongStays(cfg.maxLine, content, chunk);
    AllLinedPlus(cfg, key, Opened(fileType, counts), Init(fields), Init(next));
    assert Init(Init(fields) + next) == Init(fields) + Init(next);
  }

  lemma {:induction false} ChunksAmount(cfg: Config, key: FileKey, fileType: nat, counts: map<nat, nat>,
                                        chunks: seq<Bytes>)
    requires chunks != []
    ensures Amounts(cfg, key, fileType, counts, Concat(chunks), |chunks|, RunChunks(cfg, key, fileType, counts, chunks))
  {
    hide Amounts, Chunked;
    var init, last := chunks[..|chunks| - 1], chunks[|chunks| - 1];
    var before := RunChunks(cfg, key, fileType, counts, init);
    if init == [] {
      assert Concat(chunks) == [] + last == last;
      FirstChunk(cfg, key, fileType, counts, last);
    } else {
      ChunksAmount(cfg, key, fileType, counts, init);
      if before.Ok? {
        NextChunk(cfg, key, fileType, counts, Concat(init), |init|, before.value, last);
      } else {
        FailureStays(cfg, key, fileType, counts, Concat(init), |init|, last);
      }
    }
  }

  /** The outputs of a file, from its content alone; `Err` when a line is too long or the header is no CSV row. */
  function FileWork(cfg: Config, key: FileKey, fileType: nat, counts: map<nat, nat>, content: Bytes): Result<Work> {
    if !Within(cfg.maxLine, Split(content, NEWLINE)) then Err
    else
      var w := AllLined(cfg, key, Opened(fileType, counts), FileLines(content));
      if w.Err? then Err else Ok(Closing(cfg, key, w.value))
  }

  /** However a file is cut into chunks, its outputs, counters and success are those of its content. */
  lemma ChunkingDoesNotMatter(cfg: Config, key: FileKey, fileType: nat, counts: map<nat, nat>, chunks: seq<Bytes>)
    requires chunks != []
    ensures var r := RunFile(cfg, key, fileType, counts, chunks);
            var w := FileWork(cfg, key, fileType, counts, Concat(chunks));
            && (r.Ok? <==> w.Ok?)
            && (r.Ok? ==> r.value.out == w.value.out && r.value.counts == w.value.counts)
            && (r.Ok? ==> r.value.file.core == w.value.core)
  {
    hide AllLined, Split, Concat, RunChunks, Closing, Opened;
    var content := Concat(chunks);
    ChunksAmount(cfg, key, fileType, counts, chunks);
    var fields := Split(content, NEWLINE);
    var w0 := Opened(fileType, counts);
    if Last(fields) != [] {
      assert fields == Init(fields) + [Last(fields)];
      AllLinedPlus(cfg, key, w0, Init(fields), [Last(fields)]);
    } else if AllLined(cfg, key, w0, Init(fields)).Ok? {
      NoLines(cfg, key, AllLined(cfg, key, w0, Init(fields)).value);
    }
  }

  lemma NoLines(cfg: Config, key: FileKey, w: Work)
    ensures AllLined(cfg, key, w, []) == Ok(w)
  {
  }
}
