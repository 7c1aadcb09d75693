/** A file among others: what it emits in a run depends on its own bytes alone. */
module FileRuns {
  import opened Prelude
  import opened LineSplitting
  import opened FileSplitting
  import opened FileSplitterStates

  const EMPTY := StateView(map[], [], map[], 0, 0)

  /** The payloads of a file's chunks, in order. */
  function OwnChunks(changes: seq<Change>, key: FileKey): seq<Bytes> {
    if changes == [] then []
    else
      var before, last := OwnChunks(changes[..|changes| - 1], key), changes[|changes| - 1];
      if last.ChunkChange? && last.key == key then before + [last.payload] else before
  }

  /** The outputs of a file's own changes, in order. */
  function OwnOutputs(cfg: Config, changes: seq<Change>, key: FileKey): seq<Output> {
    if changes == [] then []
    else
      var init, last := changes[..|changes| - 1], changes[|changes| - 1];
      var before, v := OwnOutputs(cfg, init, key), RunAll(cfg, EMPTY, init);
      if v.Err? || !(last == FileEofChange(key) || (last.ChunkChange? && last.key == key)) then before
      else
        var out := Outputs(cfg, v.value.0, last);
        if out.Err? then before else before + out.value
  }

  /** The change does not end the file, and its chunks name one file type. */
  predicate Alongside(change: Change, key: FileKey, fileType: nat) {
    match change
    case ChunkChange(k, t, _, _) => k == key ==> t == fileType
    case FileEofChange(k) => k != key
    case ClientEofChange(c) => c != key.client
    case AbortChange(c) => c != key.client
  }

  // ---------- counters and earlier outputs do not matter ----------

  /** The same work with other counters and after other outputs. */
  ghost predicate Shifted(a: Work, b: Work, out: seq<Output>) {
    a.core == b.core && a.out == out + b.out
  }

  lemma FlushedShift(key: FileKey, a: Work, b: Work, out: seq<Output>)
    requires Shifted(a, b, out)
    ensures Shifted(Flushed(key, a), Flushed(key, b), out)
    ensures a.counts == b.counts ==> Flushed(key, a).counts == Flushed(key, b).counts
  {
    var o := DataOut(EdgeOf(a.core), BatchOf(key, a.core));
    assert out + (b.out + [o]) == (out + b.out) + [o];
  }

  lemma LinedShift(cfg: Config, key: FileKey, a: Work, b: Work, out: seq<Output>, line: Bytes)
    requires Shifted(a, b, out)
    ensures var r, s := Lined(cfg, key, a, line), Lined(cfg, key, b, line);
            && (r.Ok? <==> s.Ok?) && (r.Ok? ==> Shifted(r.value, s.value, out))
            && (r.Ok? && a.counts == b.counts ==> r.value.counts == s.value.counts)
  {
    hide PacketSize, Flushed;
    var core := a.core.(linesSeen := a.core.linesSeen + 1);
    var a1, b1 := a.(core := core), b.(core := core);
    FlushedShift(key, a1, b1, out);
  }

  lemma {:induction false} AllLinedShift(cfg: Config, key: FileKey, a: Work, b: Work, out: seq<Output>,
                                         lines: seq<Bytes>)
    requires Shifted(a, b, out)
    ensures var r, s := AllLined(cfg, key, a, lines), AllLined(cfg, key, b, lines);
            && (r.Ok? <==> s.Ok?) && (r.Ok? ==> Shifted(r.value, s.value, out))
            && (r.Ok? && a.counts == b.counts ==> r.value.counts == s.value.counts)
  {
    hide Lined, Shifted;
    if lines != [] {
      var init, last := lines[..|lines| - 1], lines[|lines| - 1];
      AllLinedShift(cfg, key, a, b, out, init);
      var r, s := AllLined(cfg, key, a, init), AllLined(cfg, key, b, init);
      if r.Ok? { LinedShift(cfg, key, r.value, s.value, out, last); }
    }
  }

  lemma ChunkedShift(cfg: Config, key: FileKey, f: FileView, ca: map<nat, nat>, cb: map<nat, nat>, out: seq<Output>,
                     fileType: nat, offset: nat, payload: Bytes)
    ensures var r, s := Chunked(cfg, key, FileRun(f, ca, []), fileType, offset, payload),
                        Chunked(cfg, key, FileRun(f, cb, out), fileType, offset, payload);
            (r.Ok? <==> s.Ok?) && (r.Ok? ==> s.value.file == r.value.file && s.value.out == out + r.value.out)
  {
    hide AllLined, Pushed;
    var pushed := Pushed(f.splitter, offset, payload);
    if pushed.Ok? {
      var core := WithType(f.core, fileType);
      assert out + [] == out;
      AllLinedShift(cfg, key, Work(core, cb, out), Work(core, ca, []), out, pushed.value.1);
    }
  }

  lemma ClosingShift(cfg: Config, key: FileKey, a: Work, b: Work, out: seq<Output>)
    requires Shifted(a, b, out) && !(a.core.fileType == Some(ACCOUNTS) && cfg.accountsEnabled)
    ensures Shifted(Closing(cfg, key, a), Closing(cfg, key, b), out)
  {
    FlushedShift(key, a, b, out);
    FlushedType(key, a);
    hide Flushed;
    var f, g := Flushed(key, a), Flushed(key, b);
    assert out + (g.out + [EofOut(LINE_BATCH, f.core.emitted)]) == f.out + [EofOut(LINE_BATCH, f.core.emitted)];
  }

  lemma FlushedType(key: FileKey, w: Work)
    ensures Flushed(key, w).core.fileType == w.core.fileType
  {
  }

  /** Only the end of an account file looks at the counters. */
  lemma FinishingShift(cfg: Config, key: FileKey, f: FileView, ca: map<nat, nat>, cb: map<nat, nat>, out: seq<Output>)
    requires f.core.fileType.Some? && !(f.core.fileType == Some(ACCOUNTS) && cfg.accountsEnabled)
    ensures var r, s := Finishing(cfg, key, FileRun(f, ca, [])), Finishing(cfg, key, FileRun(f, cb, out));
            (r.Ok? <==> s.Ok?) && (r.Ok? ==> s.value.out == out + r.value.out)
  {
    hide AllLined, Finished, Closing;
    var done := Finished(f.splitter);
    if done.Ok? {
      assert out + [] == out;
      var a, b := Work(f.core, cb, out), Work(f.core, ca, []);
      AllLinedShift(cfg, key, a, b, out, done.value.1);
      var w, u := AllLined(cfg, key, a, done.value.1), AllLined(cfg, key, b, done.value.1);
      if w.Ok? {
        TypeStays(cfg, key, a, done.value.1, 0);
        ClosingShift(cfg, key, w.value, u.value, out);
      }
    }
  }

  // ---------- other changes leave the file alone ----------

  lemma {:induction false} RemoveAllOther(v: StateView, keys: seq<FileKey>, key: FileKey)
    requires key !in keys
    ensures key in RemoveAll(v, keys).files <==> key in v.files
    ensures key in v.files ==> RemoveAll(v, keys).files[key] == v.files[key]
  {
    if keys != [] {
      RemoveAllOther(v, keys[..|keys| - 1], key);
    }
  }

  lemma OtherChange(cfg: Config, v: StateView, change: Change, key: FileKey, fileType: nat)
    requires Alongside(change, key, fileType) && !(change.ChunkChange? && change.key == key)
    requires Applied(cfg, v, change).Ok?
    ensures var w := Applied(cfg, v, change).value;
            (key in w.files <==> key in v.files) && (key in v.files ==> w.files[key] == v.files[key])
  {
    hide Chunked, FinishAll, RemoveAll;
    match change
    case ChunkChange(_, _, _, _) =>
    case FileEofChange(k) =>
      RemoveAllOther(v, [k], key);
      RemoveAllOther(v, [], key);
    case ClientEofChange(c) => RemoveAllOther(v, KeysOf(v.order, c), key);
    case AbortChange(c) => RemoveAllOther(v, KeysOf(v.order, c), key);
  }

  /** The file's state and its outputs so far are those of its own chunks, taken alone. */
  ghost predicate Alone(cfg: Config, changes: seq<Change>, key: FileKey, fileType: nat) {
    var v, xs := RunAll(cfg, EMPTY, changes), OwnChunks(changes, key);
    && v.Ok?
    && (xs == [] ==> key !in v.value.0.files && OwnOutputs(cfg, changes, key) == [])
    && (xs != [] ==>
          var r := RunChunks(cfg, key, fileType, map[], xs);
          && r.Ok? && key in v.value.0.files && v.value.0.files[key] == r.value.file
          && OwnOutputs(cfg, changes, key) == r.value.out)
  }

  lemma RunLast(cfg: Config, changes: seq<Change>, change: Change)
    requires RunAll(cfg, EMPTY, changes + [change]).Ok?
    ensures var v := RunAll(cfg, EMPTY, changes);
            && v.Ok? && Applied(cfg, v.value.0, change).Ok? && Outputs(cfg, v.value.0, change).Ok?
            && RunAll(cfg, EMPTY, changes + [change]).value.0 == Applied(cfg, v.value.0, change).value
  {
    assert (changes + [change])[..|changes|] == changes;
  }

  lemma OwnLast(cfg: Config, changes: seq<Change>, change: Change, key: FileKey)
    requires RunAll(cfg, EMPTY, changes + [change]).Ok?
    ensures var v, mine := RunAll(cfg, EMPTY, changes), change.ChunkChange? && change.key == key;
            && v.Ok? && Outputs(cfg, v.value.0, change).Ok?
            && OwnChunks(changes + [change], key) == OwnChunks(changes, key) + (if mine then [change.payload] else [])
            && OwnOutputs(cfg, changes + [change], key) ==
               OwnOutputs(cfg, changes, key) +
               (if mine || change == FileEofChange(key) then Outputs(cfg, v.value.0, change).value else [])
  {
    hide Applied, Outputs;
    RunLast(cfg, changes, change);
    assert (changes + [change])[..|changes|] == changes;
    assert OwnChunks(changes, key) + [] == OwnChunks(changes, key);
    assert OwnOutputs(cfg, changes, key) + [] == OwnOutputs(cfg, changes, key);
  }

  /** One more chunk of the file itself. */
  lemma OwnChunk(cfg: Config, changes: seq<Change>, change: Change, key: FileKey, fileType: nat)
    requires Alone(cfg, changes, key, fileType) && RunAll(cfg, EMPTY, changes + [change]).Ok?
    requires change.ChunkChange? && change.key == key && change.fileType == fileType
    ensures Alone(cfg, changes + [change], key, fileType)
  {
    hide Chunked, RunAll, OwnChunks, OwnOutputs, Applied, Outputs, RunChunks;
    RunLast(cfg, changes, change);
    OwnLast(cfg, changes, change, key);
    var v, xs := RunAll(cfg, EMPTY, changes).value.0, OwnChunks(changes, key);
    ChunkTaken(cfg, v, change);
    RunNothing(cfg, key, fileType);
    RunOneMore(cfg, key, fileType, xs, change.payload);
    var before := RunChunks(cfg, key, fileType, map[], xs).value;
    assert before.file == FileOf(cfg, v, key) && before.out == OwnOutputs(cfg, changes, key);
    ChunkedShift(cfg, key, before.file, v.counts, before.counts, before.out, fileType, change.offset, change.payload);
    OffsetMatters(cfg, key, FileRun(before.file, v.counts, []), fileType, change.offset, change.payload);
  }

  lemma ChunkTaken(cfg: Config, v: StateView, change: Change)
    requires change.ChunkChange? && Applied(cfg, v, change).Ok? && Outputs(cfg, v, change).Ok?
    ensures var now := FileRun(FileOf(cfg, v, change.key), v.counts, []);
            var r := Chunked(cfg, change.key, now, change.fileType, change.offset, change.payload);
            && r.Ok? && Outputs(cfg, v, change).value == r.value.out
            && change.key in Applied(cfg, v, change).value.files
            && Applied(cfg, v, change).value.files[change.key] == r.value.file
  {
    hide Chunked;
  }

  lemma RunOneMore(cfg: Config, key: FileKey, fileType: nat, xs: seq<Bytes>, payload: Bytes)
    requires RunChunks(cfg, key, fileType, map[], xs).Ok?
    ensures var before := RunChunks(cfg, key, fileType, map[], xs).value;
            RunChunks(cfg, key, fileType, map[], xs + [payload]) ==
            Chunked(cfg, key, before, fileType, before.file.splitter.offset, payload)
  {
    hide Chunked;
    assert (xs + [payload])[..|xs|] == xs;
  }

  lemma RunNothing(cfg: Config, key: FileKey, fileType: nat)
    ensures RunChunks(cfg, key, fileType, map[], []) == Ok(FileRun(NewFile(cfg), map[], []))
  {
  }

  lemma OffsetMatters(cfg: Config, key: FileKey, r: FileRun, fileType: nat, offset: nat, payload: Bytes)
    requires Chunked(cfg, key, r, fileType, offset, payload).Ok?
    ensures offset == r.file.splitter.offset
  {
  }

  lemma {:induction false} AloneInRun(cfg: Config, changes: seq<Change>, key: FileKey, fileType: nat)
    requires RunAll(cfg, EMPTY, changes).Ok?
    requires forall i :: 0 <= i < |changes| ==> Alongside(changes[i], key, fileType)
    ensures Alone(cfg, changes, key, fileType)
    decreases |changes|
  {
    hide Applied, Outputs, Alongside;
    if changes != [] {
      var init, last := changes[..|changes| - 1], changes[|changes| - 1];
      assert changes == init + [last];
      RunLast(cfg, init, last);
      AloneInRun(cfg, init, key, fileType);
      hide RunAll, OwnChunks, OwnOutputs, RunChunks;
      if last.ChunkChange? && last.key == key {
        AlongsideType(last, key, fileType);
        OwnChunk(cfg, init, last, key, fileType);
      } else {
        OwnLast(cfg, init, last, key);
        AlongsideEnds(last, key, fileType);
        OtherChange(cfg, RunAll(cfg, EMPTY, init).value.0, last, key, fileType);
        assert OwnChunks(init, key) + [] == OwnChunks(init, key);
        assert OwnOutputs(cfg, init, key) + [] == OwnOutputs(cfg, init, key);
      }
    }
  }

  lemma AlongsideType(change: Change, key: FileKey, fileType: nat)
    requires Alongside(change, key, fileType) && change.ChunkChange? && change.key == key
    ensures change.fileType == fileType
  {
  }

  lemma AlongsideEnds(change: Change, key: FileKey, fileType: nat)
    requires Alongside(change, key, fileType)
    ensures change != FileEofChange(key)
  {
  }

  /** In any successful run, however its chunks are cut and whatever happens to other files and other clients in
      between, a file emits exactly the outputs of its content; for account files see below. */
  lemma FileEmitsItsContent(cfg: Config, changes: seq<Change>, key: FileKey, fileType: nat)
    requires !(fileType == ACCOUNTS && cfg.accountsEnabled) && OwnChunks(changes, key) != []
    requires forall i :: 0 <= i < |changes| ==> Alongside(changes[i], key, fileType)
    requires RunAll(cfg, EMPTY, changes + [FileEofChange(key)]).Ok?
    ensures var w := FileWork(cfg, key, fileType, map[], Concat(OwnChunks(changes, key)));
            w.Ok? && OwnOutputs(cfg, changes + [FileEofChange(key)], key) == w.value.out
  {
    var xs, end := OwnChunks(changes, key), FileEofChange(key);
    RunLast(cfg, changes, end);
    OwnLast(cfg, changes, end, key);
    AloneInRun(cfg, changes, key, fileType);
    RunType(cfg, key, fileType, xs);
    hide RunAll, OwnChunks, OwnOutputs, RunChunks, Finishing, FileWork;
    var v, r := RunAll(cfg, EMPTY, changes).value.0, RunChunks(cfg, key, fileType, map[], xs).value;
    OneFinished(cfg, v, key);
    FinishingShift(cfg, key, r.file, v.counts, r.counts, r.out);
    ChunkingDoesNotMatter(cfg, key, fileType, map[], xs);
  }

  lemma OneFinished(cfg: Config, v: StateView, key: FileKey)
    requires key in v.files
    ensures var r := Finishing(cfg, key, FileRun(v.files[key], v.counts, []));
            Outputs(cfg, v, FileEofChange(key)) == if r.Err? then Err else Ok(r.value.out)
  {
    hide Finishing;
    assert [key][..0] == [];
    NothingToFinish(cfg, v);
  }

  lemma RunType(cfg: Config, key: FileKey, fileType: nat, xs: seq<Bytes>)
    requires xs != [] && RunChunks(cfg, key, fileType, map[], xs).Ok?
    ensures RunChunks(cfg, key, fileType, map[], xs).value.file.core.fileType == Some(fileType)
  {
    hide AllLined, Split;
    ChunksAmount(cfg, key, fileType, map[], xs);
    var fields := Split(Concat(xs), NEWLINE);
    TypeStays(cfg, key, Opened(fileType, map[]), Init(fields), fileType);
  }

  // ---------- account files: the total of the end of stream ----------

  /** Account batches after the outputs, counted from the last end of an account file on. */
  function Since(start: nat, out: seq<Output>): nat {
    if out == [] then start
    else
      var before, last := Since(start, out[..|out| - 1]), out[|out| - 1];
      if last.edge != ACCOUNTS_EDGE then before else if last.DataOut? then before + 1 else 0
  }

  /** Every end of an account file among the outputs carries the batches since the last one. */
  ghost predicate TotalsRight(start: nat, out: seq<Output>) {
    forall i :: 0 <= i < |out| && out[i].EofOut? && out[i].edge == ACCOUNTS_EDGE ==>
                  out[i].total == Since(start, out[..i])
  }

  lemma {:induction false} SincePlus(start: nat, a: seq<Output>, b: seq<Output>)
    ensures Since(start, a + b) == Since(Since(start, a), b)
  {
    if b == [] {
      assert a + b == a;
    } else {
      assert (a + b)[..|a + b| - 1] == a + b[..|b| - 1];
      SincePlus(start, a, b[..|b| - 1]);
    }
  }

  lemma TotalsSnoc(start: nat, out: seq<Output>, o: Output)
    requires TotalsRight(start, out) && (o.EofOut? && o.edge == ACCOUNTS_EDGE ==> o.total == Since(start, out))
    ensures TotalsRight(start, out + [o])
    ensures Since(start, out + [o]) ==
            if o.edge != ACCOUNTS_EDGE then Since(start, out) else if o.DataOut? then Since(start, out) + 1 else 0
  {
    var more := out + [o];
    assert more[..|out|] == out;
    assert forall i :: 0 <= i < |out| ==> more[i] == out[i] && more[..i] == out[..i];
  }

  /** The client's counter is the batches since the last end; other clients' counters stay as they were. */
  ghost predicate Tracked(client: nat, start: nat, before: map<nat, nat>, w: Work) {
    && Get(w.counts, client, 0) == Since(start, w.out) && TotalsRight(start, w.out)
    && forall c :: c != client ==> Get(w.counts, c, 0) == Get(before, c, 0)
  }

  lemma FlushedTracked(key: FileKey, start: nat, before: map<nat, nat>, w: Work)
    requires Tracked(key.client, start, before, w)
    ensures Tracked(key.client, start, before, Flushed(key, w))
  {
    hide TotalsRight, Since;
    if w.core.lines != [] { TotalsSnoc(start, w.out, DataOut(EdgeOf(w.core), BatchOf(key, w.core))); }
  }

  lemma LinedTracked(cfg: Config, key: FileKey, start: nat, before: map<nat, nat>, w: Work, line: Bytes)
    requires Tracked(key.client, start, before, w) && Lined(cfg, key, w, line).Ok?
    ensures Tracked(key.client, start, before, Lined(cfg, key, w, line).value)
  {
    hide Flushed, PacketSize, TotalsRight, Since;
    FlushedTracked(key, start, before, w.(core := w.core.(linesSeen := w.core.linesSeen + 1)));
  }

  lemma {:induction false} AllLinedTracked(cfg: Config, key: FileKey, start: nat, before: map<nat, nat>, w: Work,
                                           lines: seq<Bytes>)
    requires Tracked(key.client, start, before, w) && AllLined(cfg, key, w, lines).Ok?
    ensures Tracked(key.client, start, before, AllLined(cfg, key, w, lines).value)
  {
    hide Lined, Tracked;
    if lines != [] {
      var init := lines[..|lines| - 1];
      AllLinedTracked(cfg, key, start, before, w, init);
      LinedTracked(cfg, key, start, before, AllLined(cfg, key, w, init).value, lines[|lines| - 1]);
    }
  }

  lemma EndTracked(client: nat, start: nat, before: map<nat, nat>, w: Work, total: nat)
    requires Tracked(client, start, before, w)
    ensures Tracked(client, start, before, w.(out := w.out + [EofOut(LINE_BATCH, total)]))
    ensures var end := EofOut(ACCOUNTS_EDGE, Get(w.counts, client, 0));
            Tracked(client, start, before, w.(out := w.out + [end], counts := Pop(w.counts, client)))
  {
    hide TotalsRight, Since;
    TotalsSnoc(start, w.out, EofOut(LINE_BATCH, total));
    TotalsSnoc(start, w.out, EofOut(ACCOUNTS_EDGE, Get(w.counts, client, 0)));
  }

  lemma ClosingTracked(cfg: Config, key: FileKey, start: nat, before: map<nat, nat>, w: Work)
    requires Tracked(key.client, start, before, w)
    ensures Tracked(key.client, start, before, Closing(cfg, key, w))
  {
    hide Flushed, Tracked;
    FlushedTracked(key, start, before, w);
    EndTracked(key.client, start, before, Flushed(key, w), Flushed(key, w).core.emitted);
  }

  lemma NothingEmitted(client: nat, counts: map<nat, nat>, core: Core)
    ensures Tracked(client, Get(counts, client, 0), counts, Work(core, counts, []))
  {
  }

  lemma ChunkedTracked(cfg: Config, key: FileKey, f: FileView, counts: map<nat, nat>, fileType: nat, offset: nat,
                       payload: Bytes)
    requires Chunked(cfg, key, FileRun(f, counts, []), fileType, offset, payload).Ok?
    ensures var r := Chunked(cfg, key, FileRun(f, counts, []), fileType, offset, payload).value;
            Tracked(key.client, Get(counts, key.client, 0), counts, Work(r.file.core, r.counts, r.out))
  {
    hide AllLined, Pushed, Tracked;
    var core := WithType(f.core, fileType);
    NothingEmitted(key.client, counts, core);
    AllLinedTracked(cfg, key, Get(counts, key.client, 0), counts, Work(core, counts, []),
                    Pushed(f.splitter, offset, payload).value.1);
  }

  lemma FinishingTracked(cfg: Config, key: FileKey, f: FileView, counts: map<nat, nat>, out: seq<Output>,
                         start: nat, before: map<nat, nat>)
    requires Tracked(key.client, start, before, Work(f.core, counts, out))
    requires Finishing(cfg, key, FileRun(f, counts, out)).Ok?
    ensures var r := Finishing(cfg, key, FileRun(f, counts, out)).value;
            Tracked(key.client, start, before, Work(r.file.core, r.counts, r.out))
  {
    hide AllLined, Finished, Tracked, Closing;
    var lines, w := Finished(f.splitter).value.1, Work(f.core, counts, out);
    AllLinedTracked(cfg, key, start, before, w, lines);
    ClosingTracked(cfg, key, start, before, AllLined(cfg, key, w, lines).value);
  }

  lemma CoreAside(client: nat, start: nat, before: map<nat, nat>, w: Work, core: Core)
    requires Tracked(client, start, before, w)
    ensures Tracked(client, start, before, w.(core := core))
  {
    hide Since, TotalsRight;
  }

  lemma {:induction false} FinishAllTracked(cfg: Config, v: StateView, keys: seq<FileKey>, client: nat)
    requires FinishAll(cfg, v, keys).Ok? && forall i :: 0 <= i < |keys| ==> keys[i].client == client
    ensures var r := FinishAll(cfg, v, keys).value;
            Tracked(client, Get(v.counts, client, 0), v.counts, Work(NEW_CORE, r.0, r.1))
  {
    hide Finishing, Tracked;
    var start := Get(v.counts, client, 0);
    if keys == [] {
      NothingEmitted(client, v.counts, NEW_CORE);
    } else {
      var init, key := keys[..|keys| - 1], keys[|keys| - 1];
      FinishAllTracked(cfg, v, init, client);
      var b := FinishAll(cfg, v, init).value;
      CoreAside(client, start, v.counts, Work(NEW_CORE, b.0, b.1), v.files[key].core);
      FinishingTracked(cfg, key, v.files[key], b.0, b.1, start, v.counts);
      var r := Finishing(cfg, key, FileRun(v.files[key], b.0, b.1)).value;
      CoreAside(client, start, v.counts, Work(r.file.core, r.counts, r.out), NEW_CORE);
    }
  }

  function ClientOf(change: Change): nat {
    if change.ChunkChange? || change.FileEofChange? then change.key.client else change.client
  }

  /** The account batches of a client since its last end of an account file, or its abort. */
  function AccountBatches(cfg: Config, changes: seq<Change>, client: nat): nat {
    if changes == [] then 0
    else
      var init, last := changes[..|changes| - 1], changes[|changes| - 1];
      var before, v := AccountBatches(cfg, init, client), RunAll(cfg, EMPTY, init);
      if ClientOf(last) != client || v.Err? then before
      else if last.AbortChange? || Outputs(cfg, v.value.0, last).Err? then 0
      else Since(before, Outputs(cfg, v.value.0, last).value)
  }

  /** One change moves its client's counter by its outputs, and no other counter. */
  lemma ChangeTracked(cfg: Config, v: StateView, change: Change)
    requires Applied(cfg, v, change).Ok? && Outputs(cfg, v, change).Ok?
    ensures var w, out, c := Applied(cfg, v, change).value, Outputs(cfg, v, change).value, ClientOf(change);
            && (forall d :: d != c ==> Get(w.counts, d, 0) == Get(v.counts, d, 0))
            && (change.AbortChange? ==> Get(w.counts, c, 0) == 0)
            && (!change.AbortChange? ==>
                  Get(w.counts, c, 0) == Since(Get(v.counts, c, 0), out) && TotalsRight(Get(v.counts, c, 0), out))
  {
    hide Chunked, FinishAll, Since, TotalsRight;
    match change
    case ChunkChange(key, fileType, offset, payload) =>
      ChunkedTracked(cfg, key, FileOf(cfg, v, key), v.counts, fileType, offset, payload);
    case FileEofChange(key) =>
      FinishAllTracked(cfg, v, if key in v.files then [key] else [], key.client);
      NothingToFinish(cfg, v);
    case ClientEofChange(client) =>
      var keys := KeysOf(v.order, client);
      assert forall i :: 0 <= i < |keys| ==> keys[i] in keys;
      FinishAllTracked(cfg, v, keys, client);
    case AbortChange(_) =>
  }

  /** Over any successful run the counter of a client is its account batches since its last end, and every end of an
      account file that the next change emits carries that number. */
  lemma {:induction false} CountersTrackBatches(cfg: Config, changes: seq<Change>, client: nat)
    requires RunAll(cfg, EMPTY, changes).Ok?
    ensures Get(RunAll(cfg, EMPTY, changes).value.0.counts, client, 0) == AccountBatches(cfg, changes, client)
  {
    hide Applied, Outputs, Since;
    if changes != [] {
      var init, last := changes[..|changes| - 1], changes[|changes| - 1];
      assert changes == init + [last];
      RunLast(cfg, init, last);
      CountersTrackBatches(cfg, init, client);
      ChangeTracked(cfg, RunAll(cfg, EMPTY, init).value.0, last);
    }
  }

  lemma TotalsOverRuns(cfg: Config, changes: seq<Change>, change: Change)
    requires RunAll(cfg, EMPTY, changes + [change]).Ok?
    ensures RunAll(cfg, EMPTY, changes).Ok?
    ensures var v := RunAll(cfg, EMPTY, changes).value.0;
            Outputs(cfg, v, change).Ok? &&
            (!change.AbortChange? ==>
               TotalsRight(AccountBatches(cfg, changes, ClientOf(change)), Outputs(cfg, v, change).value))
  {
    hide Applied, Outputs, Since, TotalsRight, RunAll, AccountBatches;
    RunLast(cfg, changes, change);
    CountersTrackBatches(cfg, changes, ClientOf(change));
    ChangeTracked(cfg, RunAll(cfg, EMPTY, changes).value.0, change);
  }

  /** Outputs that differ in the total of the last one only. */
  ghost predicate SameButTotal(a: seq<Output>, b: seq<Output>) {
    && |a| == |b| > 0 && a[..|a| - 1] == b[..|b| - 1]
    && a[|a| - 1].EofOut? && b[|b| - 1].EofOut? && a[|a| - 1].edge == b[|b| - 1].edge == ACCOUNTS_EDGE
  }

  lemma FinishingAccounts(cfg: Config, key: FileKey, f: FileView, ca: map<nat, nat>, cb: map<nat, nat>,
                          out: seq<Output>)
    requires f.core.fileType == Some(ACCOUNTS) && cfg.accountsEnabled
    ensures var r, s := Finishing(cfg, key, FileRun(f, ca, [])), Finishing(cfg, key, FileRun(f, cb, out));
            (r.Ok? <==> s.Ok?) && (r.Ok? ==> r.value.out != [] && SameButTotal(out + r.value.out, s.value.out))
  {
    hide AllLined, Finished;
    var done := Finished(f.splitter);
    if done.Ok? {
      assert out + [] == out;
      var a, b := Work(f.core, cb, out), Work(f.core, ca, []);
      AllLinedShift(cfg, key, a, b, out, done.value.1);
      var w, u := AllLined(cfg, key, a, done.value.1), AllLined(cfg, key, b, done.value.1);
      if w.Ok? {
        TypeStays(cfg, key, a, done.value.1, 0);
        FlushedShift(key, w.value, u.value, out);
        FlushedType(key, w.value);
        hide Flushed;
        var x, y := Flushed(key, w.value), Flushed(key, u.value);
        var last := EofOut(ACCOUNTS_EDGE, Get(y.counts, key.client, 0));
        assert out + (y.out + [last]) == x.out + [last];
      }
    }
  }

  /** An account file emits the batches of its content, whatever else happens in the run, and its end of stream carries
      the number of account batches of its client since the client's last one, its own last batch included. */
  lemma AccountFileEmitsItsContent(cfg: Config, changes: seq<Change>, key: FileKey)
    requires cfg.accountsEnabled && OwnChunks(changes, key) != []
    requires forall i :: 0 <= i < |changes| ==> Alongside(changes[i], key, ACCOUNTS)
    requires RunAll(cfg, EMPTY, changes + [FileEofChange(key)]).Ok?
    ensures RunAll(cfg, EMPTY, changes).Ok?
    ensures var w := FileWork(cfg, key, ACCOUNTS, map[], Concat(OwnChunks(changes, key)));
            w.Ok? && SameButTotal(OwnOutputs(cfg, changes + [FileEofChange(key)], key), w.value.out)
    ensures var end := Outputs(cfg, RunAll(cfg, EMPTY, changes).value.0, FileEofChange(key));
            && end.Ok? && end.value != []
            && var n := |end.value| - 1;
               end.value[n] == EofOut(ACCOUNTS_EDGE, Since(AccountBatches(cfg, changes, key.client), end.value[..n]))
  {
    var xs, end := OwnChunks(changes, key), FileEofChange(key);
    RunLast(cfg, changes, end);
    OwnLast(cfg, changes, end, key);
    TotalsOverRuns(cfg, changes, end);
    AloneInRun(cfg, changes, key, ACCOUNTS);
    RunType(cfg, key, ACCOUNTS, xs);
    hide RunAll, OwnChunks, OwnOutputs, RunChunks, Finishing, FileWork, Since, AccountBatches;
    var v, r := RunAll(cfg, EMPTY, changes).value.0, RunChunks(cfg, key, ACCOUNTS, map[], xs).value;
    OneFinished(cfg, v, key);
    FinishingAccounts(cfg, key, r.file, v.counts, r.counts, r.out);
    ChunkingDoesNotMatter(cfg, key, ACCOUNTS, map[], xs);
    LastTotal(r.out, Outputs(cfg, v, end).value, Finishing(cfg, key, r).value.out);
  }

  lemma LastTotal(before: seq<Output>, own: seq<Output>, all: seq<Output>)
    requires own != [] && SameButTotal(before + own, all)
    ensures own[|own| - 1].EofOut? && own[|own| - 1].edge == ACCOUNTS_EDGE
  {
    assert (before + own)[|before + own| - 1] == own[|own| - 1];
  }
}
