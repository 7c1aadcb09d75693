/** The file splitter's state on the heap: the same code runs on a copy to predict the outputs of a change
    and on the real state to apply it. */
module FileSplitterStates {
  import opened Prelude
  import opened LineSplitting
  import opened LineBatches
  import opened FileSplitting

  datatype Change =
    | ChunkChange(key: FileKey, fileType: nat, offset: nat, payload: Bytes)
    | FileEofChange(key: FileKey)
    | ClientEofChange(client: nat)
    | AbortChange(client: nat)

  /** The whole state as a value; `order` is the dictionary's insertion order. */
  datatype StateView = StateView(files: map<FileKey, FileView>, order: seq<FileKey>, counts: map<nat, nat>,
                                 chunks: nat, eofs: nat)

  function FileOf(cfg: Config, v: StateView, key: FileKey): FileView {
    if key in v.files then v.files[key] else NewFile(cfg)
  }

  /** A client's files in dictionary order. */
  function KeysOf(order: seq<FileKey>, client: nat): (keys: seq<FileKey>)
    ensures forall k :: k in keys <==> k in order && k.client == client
  {
    if order == [] then []
    else
      var rest, last := KeysOf(order[..|order| - 1], client), order[|order| - 1];
      if last.client == client then rest + [last] else rest
  }

  function Without(order: seq<FileKey>, key: FileKey): (r: seq<FileKey>)
    ensures forall k :: k in r <==> k in order && k != key
  {
    if order == [] then []
    else
      var rest, last := Without(order[..|order| - 1], key), order[|order| - 1];
      if last == key then rest else rest + [last]
  }

  /** Files finished one after the other, sharing the account counters. */
  function FinishAll(cfg: Config, v: StateView, keys: seq<FileKey>): Result<(map<nat, nat>, seq<Output>)> {
    if keys == [] then Ok((v.counts, []))
    else
      var before, key := FinishAll(cfg, v, keys[..|keys| - 1]), keys[|keys| - 1];
      if before.Err? || key !in v.files then Err
      else
        var r := Finishing(cfg, key, FileRun(v.files[key], before.value.0, before.value.1));
        if r.Err? then Err else Ok((r.value.counts, r.value.out))
  }

  function RemoveAll(v: StateView, keys: seq<FileKey>): StateView {
    if keys == [] then v
    else
      var before, key := RemoveAll(v, keys[..|keys| - 1]), keys[|keys| - 1];
      before.(files := before.files - {key}, order := Without(before.order, key))
  }

  /** What the change would emit. */
  function Outputs(cfg: Config, v: StateView, change: Change): Result<seq<Output>> {
    match change
    case ChunkChange(key, fileType, offset, payload) =>
      var r := Chunked(cfg, key, FileRun(FileOf(cfg, v, key), v.counts, []), fileType, offset, payload);
      if r.Err? then Err else Ok(r.value.out)
    case FileEofChange(key) =>
      if key !in v.files then Ok([])
      else
        var r := FinishAll(cfg, v, [key]);
        if r.Err? then Err else Ok(r.value.1)
    case ClientEofChange(client) =>
      var r := FinishAll(cfg, v, KeysOf(v.order, client));
      if r.Err? then Err else Ok(r.value.1)
    case AbortChange(_) => Ok([])
  }

  /** The state the change leads to. */
  function Applied(cfg: Config, v: StateView, change: Change): Result<StateView> {
    match change
    case ChunkChange(key, fileType, offset, payload) =>
      var r := Chunked(cfg, key, FileRun(FileOf(cfg, v, key), v.counts, []), fileType, offset, payload);
      if r.Err? then Err
      else Ok(v.(files := v.files[key := r.value.file], order := if key in v.files then v.order else v.order + [key],
                 counts := r.value.counts, chunks := v.chunks + 1))
    case FileEofChange(key) =>
      var r := FinishAll(cfg, v, if key in v.files then [key] else []);
      if r.Err? then Err
      else Ok(RemoveAll(v, if key in v.files then [key] else []).(counts := r.value.0, eofs := v.eofs + 1))
    case ClientEofChange(client) =>
      var r := FinishAll(cfg, v, KeysOf(v.order, client));
      if r.Err? then Err
      else Ok(RemoveAll(v, KeysOf(v.order, client)).(counts := r.value.0, eofs := v.eofs + 1))
    case AbortChange(client) =>
      Ok(RemoveAll(v, KeysOf(v.order, client)).(counts := Pop(v.counts, client)))
  }

  class LineList {
    var items: seq<Bytes>
    constructor (s: seq<Bytes>)
      ensures items == s
    {
      items := s;
    }
  }

  class CountTable {
    var table: map<nat, nat>
    constructor (t: map<nat, nat>)
      ensures table == t
    {
      table := t;
    }
  }

  class OutputList {
    var items: seq<Output>
    constructor ()
      ensures items == []
    {
      items := [];
    }
  }

  ghost function Target(out: OutputList?): set<object> { if out == null then {} else {out} }

  class FileState {
    const splitter: LineSplitter
    var fileType: Option<nat>
    var header: Option<seq<Bytes>>
    var batchLines: LineList
    var firstLine: nat
    var payloadBytes: nat
    var batchId: nat
    var linesSeen: nat
    var emitted: nat
    var batches: nat
    var chunks: nat
    var bytes: nat

    function CoreView(): Core
      reads this, batchLines
    {
      Core(fileType, header, batchLines.items, firstLine, payloadBytes, batchId, linesSeen, emitted, batches)
    }

    function View(): FileView
      reads this, splitter, batchLines
    {
      FileView(splitter.View(), chunks, bytes, CoreView())
    }

    constructor (cfg: Config)
      ensures View() == NewFile(cfg) && fresh(splitter) && fresh(batchLines)
    {
      splitter := new LineSplitter(Splitter(cfg.maxLine, 0, []));
      batchLines := new LineList([]);
      fileType, header, firstLine, payloadBytes := None, None, 0, 0;
      batchId, linesSeen, emitted, batches := 0, 0, 0, 0;
      chunks, bytes := 0, 0;
    }

    /** The copy a simulation works on: equal to the original and sharing no object with it. */
    constructor CopyOf(s: FileState)
      ensures View() == s.View() && fresh(splitter) && fresh(batchLines)
    {
      splitter := new LineSplitter(Splitter(s.splitter.maxLineBytes, s.splitter.expectedOffset, s.splitter.pending));
      batchLines := new LineList(s.batchLines.items);
      fileType, header, firstLine, payloadBytes := s.fileType, s.header, s.firstLine, s.payloadBytes;
      batchId, linesSeen, emitted, batches := s.batchId, s.linesSeen, s.emitted, s.batches;
      chunks, bytes := s.chunks, s.bytes;
    }
  }

  /** The batching code, on whichever file state, counters and output list (or none) it is given. `sofar` and
      `now` are the outputs collected before and after, whether or not there is a list to hold them. */
  class Batcher {
    const cfg: Config

    constructor (c: Config)
      ensures cfg == c
    {
      cfg := c;
    }

    /** Appends to the output list, if there is one. */
    method Emit(out: OutputList?, output: Output, ghost sofar: seq<Output>) returns (ghost now: seq<Output>)
      requires out != null ==> out.items == sofar
      modifies Target(out)
      ensures now == sofar + [output] && (out != null ==> out.items == now)
    {
      now := sofar + [output];
      if out != null {
        out.items := out.items + [output];
      }
    }

    method RunFlush(key: FileKey, state: FileState, counts: CountTable, out: OutputList?, ghost sofar: seq<Output>)
      returns (ghost now: seq<Output>)
      requires out != null ==> out.items == sofar
      modifies state, counts, Target(out)
      ensures Work(state.CoreView(), counts.table, now) ==
              Flushed(key, old(Work(state.CoreView(), counts.table, sofar)))
      ensures state.chunks == old(state.chunks) && state.bytes == old(state.bytes)
      ensures state.batchLines == old(state.batchLines) || fresh(state.batchLines)
      ensures out != null ==> out.items == now
    {
      now := sofar;
      if state.batchLines.items == [] {
        return;
      }
      var edge := if state.fileType == Some(ACCOUNTS) then ACCOUNTS_EDGE else LINE_BATCH;
      now := Emit(out, DataOut(edge, BatchOf(key, state.CoreView())), sofar);
      if state.fileType == Some(ACCOUNTS) {
        counts.table := counts.table[key.client := Get(counts.table, key.client, 0) + 1];
      }
      CloseBatch(state);
    }

    /** Counts the collected lines as emitted and starts a new list. */
    method CloseBatch(state: FileState)
      modifies state
      ensures var c := old(state.CoreView());
              state.CoreView() == c.(emitted := c.emitted + |c.lines|, batches := c.batches + 1,
                                     batchId := c.batchId + 1,
                                     lines := [], firstLine := 0, payloadBytes := 0)
      ensures state.chunks == old(state.chunks) && state.bytes == old(state.bytes) && fresh(state.batchLines)
    {
      var none := new LineList([]);
      state.emitted, state.batches := state.emitted + |state.batchLines.items|, state.batches + 1;
      state.batchId, state.batchLines, state.firstLine, state.payloadBytes := state.batchId + 1, none, 0, 0;
    }

    method RunAccumulate(key: FileKey, state: FileState, line: Bytes, counts: CountTable, out: OutputList?,
                         ghost sofar: seq<Output>)
      returns (ghost now: seq<Output>)
      requires out != null ==> out.items == sofar
      modifies state, state.batchLines, counts, Target(out)
      ensures Work(state.CoreView(), counts.table, now) ==
              Accumulated(cfg, key, old(Work(state.CoreView(), counts.table, sofar)), line)
      ensures state.chunks == old(state.chunks) && state.bytes == old(state.bytes)
      ensures state.batchLines == old(state.batchLines) || fresh(state.batchLines)
      ensures out != null ==> out.items == now
    {
      hide ItemsSize;
      now := sofar;
      var lineSize := 4 + |line|;
      if state.batchLines.items != [] && PacketSize(key, state.CoreView(), lineSize) > cfg.maxBatch {
        now := RunFlush(key, state, counts, out, sofar);
      }
      if state.batchLines.items == [] {
        state.firstLine := state.linesSeen;
        state.payloadBytes := 0;
      }
      state.batchLines.items := state.batchLines.items + [line];
      state.payloadBytes := state.payloadBytes + lineSize;
    }

    method RunLine(key: FileKey, state: FileState, line: Bytes, counts: CountTable, out: OutputList?,
                   ghost sofar: seq<Output>)
      returns (ok: bool, ghost now: seq<Output>)
      requires out != null ==> out.items == sofar
      modifies state, state.batchLines, counts, Target(out)
      ensures var r := Lined(cfg, key, old(Work(state.CoreView(), counts.table, sofar)), line);
              ok == r.Ok? && (ok ==> Work(state.CoreView(), counts.table, now) == r.value)
      ensures state.chunks == old(state.chunks) && state.bytes == old(state.bytes)
      ensures state.batchLines == old(state.batchLines) || fresh(state.batchLines)
      ensures ok && out != null ==> out.items == now
    {
      hide Accumulated;
      ok, now := true, sofar;
      state.linesSeen := state.linesSeen + 1;
      if state.fileType == Some(ACCOUNTS) && !cfg.accountsEnabled {
        return;
      }
      if state.header.None? {
        var clean := if line != [] && line[|line| - 1] == 13 then line[..|line| - 1] else line;
        var header := cfg.csv(clean);
        if header.None? {
          ok := false;
          return;
        }
        state.header := header;
        return;
      }
      now := RunAccumulate(key, state, line, counts, out, sofar);
    }

    method RunLines(key: FileKey, state: FileState, lines: seq<Bytes>, counts: CountTable, out: OutputList?,
                    ghost sofar: seq<Output>)
      returns (ok: bool, ghost now: seq<Output>)
      requires out != null ==> out.items == sofar
      modifies state, state.batchLines, counts, Target(out)
      ensures var r := AllLined(cfg, key, old(Work(state.CoreView(), counts.table, sofar)), lines);
              ok == r.Ok? && (ok ==> Work(state.CoreView(), counts.table, now) == r.value)
      ensures state.chunks == old(state.chunks) && state.bytes == old(state.bytes)
      ensures state.batchLines == old(state.batchLines) || fresh(state.batchLines)
      ensures ok && out != null ==> out.items == now
    {
      hide Lined;
      ok, now := true, sofar;
      ghost var start := Work(state.CoreView(), counts.table, sofar);
      for i := 0 to |lines|
        invariant AllLined(cfg, key, start, lines[..i]) == Ok(Work(state.CoreView(), counts.table, now))
        invariant state.chunks == old(state.chunks) && state.bytes == old(state.bytes)
        invariant state.batchLines == old(state.batchLines) || fresh(state.batchLines)
        invariant out != null ==> out.items == now
      {
        ok, now := RunLine(key, state, lines[i], counts, out, now);
        assert lines[..i + 1][..i] == lines[..i];
        if !ok {
          ErrStays(cfg, key, start, lines, i + 1);
          return;
        }
      }
      assert lines[..|lines|] == lines;
    }

    method RunChunk(key: FileKey, state: FileState, fileType: nat, offset: nat, payload: Bytes, counts: CountTable,
                    out: OutputList?, ghost sofar: seq<Output>) returns (ok: bool, ghost now: seq<Output>)
      requires out != null ==> out.items == sofar
      modifies state, state.splitter, state.batchLines, counts, Target(out)
      ensures var r := Chunked(cfg, key, old(FileRun(state.View(), counts.table, sofar)), fileType, offset, payload);
              ok == r.Ok? && (ok ==> FileRun(state.View(), counts.table, now) == r.value)
      ensures state.batchLines == old(state.batchLines) || fresh(state.batchLines)
      ensures ok && out != null ==> out.items == now
    {
      hide AllLined, Pushed;
      now := sofar;
      if state.fileType.None? {
        state.fileType := Some(fileType);
      }
      var lines := state.splitter.Push(offset, payload);
      if lines.Err? {
        return false, now;
      }
      ok, now := RunLines(key, state, lines.value, counts, out, sofar);
      if ok {
        state.bytes := state.bytes + |payload|;
        state.chunks := state.chunks + 1;
      }
    }

    method RunFinish(key: FileKey, state: FileState, counts: CountTable, out: OutputList?, ghost sofar: seq<Output>)
      returns (ok: bool, ghost now: seq<Output>)
      requires out != null ==> out.items == sofar
      modifies state, state.splitter, state.batchLines, counts, Target(out)
      ensures var r := Finishing(cfg, key, old(FileRun(state.View(), counts.table, sofar)));
              ok == r.Ok? && (ok ==> FileRun(state.View(), counts.table, now) == r.value)
      ensures state.batchLines == old(state.batchLines) || fresh(state.batchLines)
      ensures ok && out != null ==> out.items == now
    {
      hide AllLined, Finished, Flushed;
      now := sofar;
      var lines := state.splitter.Finish();
      if lines.Err? {
        return false, now;
      }
      ok, now := RunLines(key, state, lines.value, counts, out, sofar);
      if !ok {
        return;
      }
      now := RunFlush(key, state, counts, out, now);
      if state.fileType == Some(TRANSACTIONS) {
        now := Emit(out, EofOut(LINE_BATCH, state.emitted), now);
      } else if state.fileType == Some(ACCOUNTS) && cfg.accountsEnabled {
        now := Emit(out, EofOut(ACCOUNTS_EDGE, Get(counts.table, key.client, 0)), now);
      }
      if state.fileType == Some(ACCOUNTS) && cfg.accountsEnabled {
        counts.table := counts.table - {key.client};
      }
    }

    /** Runs a chunk on a copy of the file (or a new one) and of the counters, collecting the outputs. */
    method ChunkOnCopy(key: FileKey, file: FileState?, accounts: CountTable, fileType: nat, offset: nat, payload: Bytes)
      returns (r: Result<seq<Output>>)
      ensures var f := if file == null then NewFile(cfg) else old(file.View());
              var run := Chunked(cfg, key, FileRun(f, accounts.table, []), fileType, offset, payload);
              r == if run.Err? then Err else Ok(run.value.out)
    {
      hide Chunked;
      var copy: FileState;
      if file == null {
        copy := new FileState(cfg);
      } else {
        copy := new FileState.CopyOf(file);
      }
      var counts := new CountTable(accounts.table);
      var out := new OutputList();
      var ok, now := RunChunk(key, copy, fileType, offset, payload, counts, out, []);
      r := if ok then Ok(out.items) else Err;
    }

    /** Finishes a copy of the file; the counters and the list are the caller's. */
    method FinishOnCopy(key: FileKey, file: FileState, counts: CountTable, out: OutputList) returns (ok: bool)
      modifies counts, out
      ensures var r := Finishing(cfg, key, old(FileRun(file.View(), counts.table, out.items)));
              ok == r.Ok? && (ok ==> counts.table == r.value.counts && out.items == r.value.out)
    {
      hide Finishing;
      var copy := new FileState.CopyOf(file);
      ghost var now;
      ok, now := RunFinish(key, copy, counts, out, out.items);
    }
  }

  lemma {:induction false} ErrStays(cfg: Config, key: FileKey, w: Work, lines: seq<Bytes>, i: nat)
    requires i <= |lines| && AllLined(cfg, key, w, lines[..i]).Err?
    ensures AllLined(cfg, key, w, lines).Err?
  {
    AllLinedPlus(cfg, key, w, lines[..i], lines[i..]);
    assert lines[..i] + lines[i..] == lines;
  }

  /** `order` lists the keys, each once. */
  ghost predicate Lists(order: seq<FileKey>, keys: set<FileKey>) {
    (forall k :: k in order <==> k in keys) && Distinct(order)
  }

  ghost predicate Distinct(keys: seq<FileKey>) {
    forall i, j :: 0 <= i < j < |keys| ==> keys[i] != keys[j]
  }

  lemma ListsMore(order: seq<FileKey>, keys: set<FileKey>, key: FileKey)
    requires Lists(order, keys) && key !in keys
    ensures Lists(order + [key], keys + {key})
  {
  }

  lemma ListsLess(order: seq<FileKey>, keys: set<FileKey>, key: FileKey)
    requires Lists(order, keys)
    ensures Lists(Without(order, key), keys - {key})
  {
    WithoutDistinct(order, key);
  }

  lemma {:induction false} WithoutDistinct(order: seq<FileKey>, key: FileKey)
    requires Distinct(order)
    ensures Distinct(Without(order, key))
  {
    if order != [] {
      WithoutDistinct(order[..|order| - 1], key);
      assert order[|order| - 1] !in order[..|order| - 1];
    }
  }

  ghost predicate Separate(a: FileState, b: FileState)
    reads a, b
  {
    a != b && a.splitter != b.splitter && a.batchLines != b.batchLines
  }

  /** The file's objects belong to the state, and hold the given value. */
  ghost predicate Held(f: FileState, repr: set<object>, v: FileView)
    reads f, f.splitter, f.batchLines
  {
    f in repr && f.splitter in repr && f.batchLines in repr && f.View() == v
  }

  lemma HeldMore(f: FileState, repr: set<object>, more: set<object>, v: FileView)
    requires Held(f, repr, v) && repr <= more
    ensures Held(f, more, v)
  {
  }

  lemma HeldNow(f: FileState, repr: set<object>)
    requires f in repr && f.splitter in repr && f.batchLines in repr
    ensures Held(f, repr, f.View())
  {
  }

  lemma HeldIn(f: FileState, repr: set<object>, v: FileView)
    requires Held(f, repr, v)
    ensures f in repr && f.splitter in repr && f.batchLines in repr
  {
  }

  lemma Apart(a: FileState, b: FileState)
    requires Separate(a, b)
    ensures Separate(b, a)
  {
  }

  /** The order lists the files, no two files share an object, and `views` shows what each file holds. */
  ghost predicate Sound(files: map<FileKey, FileState>, order: seq<FileKey>, views: map<FileKey, FileView>,
                        repr: set<object>)
    reads repr
  {
    && views.Keys == files.Keys && Lists(order, files.Keys)
    && (forall k :: k in files ==> files[k] in repr && files[k].splitter in repr && files[k].batchLines in repr)
    && (forall k :: k in files ==> Held(files[k], repr, views[k]))
    && (forall a, b :: a in files && b in files && a != b ==> Separate(files[a], files[b]))
  }

  /** A file holds a new value, maybe in a new list. */
  lemma SoundMoved(files: map<FileKey, FileState>, order: seq<FileKey>, views: map<FileKey, FileView>,
                   repr: set<object>, key: FileKey)
    requires key in files && views.Keys == files.Keys && Lists(order, files.Keys)
    requires files[key] in repr && files[key].splitter in repr
    requires forall k :: k in files && k != key ==> Held(files[k], repr, views[k]) && Separate(files[k], files[key])
    requires forall a, b :: a in files && b in files && a != b && a != key && b != key ==> Separate(files[a], files[b])
    ensures Sound(files, order, views[key := files[key].View()], repr + {files[key].batchLines})
  {
    hide Lists, FileState.View, Held, Separate;
    var more, next := repr + {files[key].batchLines}, views[key := files[key].View()];
    HeldNow(files[key], more);
    forall k | k in files && k != key
      ensures Held(files[k], more, next[k]) && Separate(files[key], files[k])
    {
      Apart(files[k], files[key]);
      HeldMore(files[k], repr, more, views[k]);
    }
    forall k | k in files
      ensures files[k] in more && files[k].splitter in more && files[k].batchLines in more
    {
      HeldIn(files[k], more, next[k]);
    }
  }

  lemma SoundEntered(files: map<FileKey, FileState>, order: seq<FileKey>, views: map<FileKey, FileView>,
                     repr: set<object>,
                     key: FileKey, f: FileState)
    requires Sound(files, order, views, repr) && key !in files
    requires f !in repr && f.splitter !in repr && f.batchLines !in repr
    ensures Sound(files[key := f], order + [key], views[key := f.View()], repr + {f, f.splitter, f.batchLines})
  {
    hide FileState.View, Lists;
    var all, own := files[key := f], repr + {f, f.splitter};
    ListsMore(order, files.Keys, key);
    assert all.Keys == files.Keys + {key};
    forall k | k in all && k != key ensures Held(all[k], own, views[k]) && Separate(all[k], f) {
      assert Held(files[k], repr, views[k]);
    }
    assert forall a, b :: a in all && b in all && a != b && a != key && b != key ==> Separate(all[a], all[b]);
    hide Held, Separate;
    SoundMoved(all, order + [key], views[key := f.View()], own, key);
    assert views[key := f.View()][key := f.View()] == views[key := f.View()];
    assert own + {f.batchLines} == repr + {f, f.splitter, f.batchLines};
  }

  lemma SoundForgotten(files: map<FileKey, FileState>, order: seq<FileKey>, views: map<FileKey, FileView>,
                       repr: set<object>, key: FileKey)
    requires Sound(files, order, views, repr)
    ensures Sound(files - {key}, Without(order, key), views - {key}, repr)
  {
    hide FileState.View, Lists, Held, Separate;
    ListsLess(order, files.Keys, key);
    assert (files - {key}).Keys == files.Keys - {key};
  }

  lemma OneLess(views: map<FileKey, FileView>, key: FileKey, v: FileView)
    ensures views[key := v] - {key} == views - {key}
  {
  }

  lemma SoundKeys(files: map<FileKey, FileState>, order: seq<FileKey>, views: map<FileKey, FileView>, repr: set<object>)
    requires Sound(files, order, views, repr)
    ensures views.Keys == files.Keys && Lists(order, files.Keys)
  {
  }

  lemma SoundParts(files: map<FileKey, FileState>, order: seq<FileKey>, views: map<FileKey, FileView>,
                   repr: set<object>, key: FileKey)
    requires Sound(files, order, views, repr) && key in views
    ensures key in files && files[key] in repr && files[key].splitter in repr && files[key].batchLines in repr
  {
  }

  lemma {:induction false} RemoveAllKeeps(v: StateView, keys: seq<FileKey>)
    ensures var r := RemoveAll(v, keys); r.counts == v.counts && r.chunks == v.chunks && r.eofs == v.eofs
  {
    if keys != [] {
      RemoveAllKeeps(v, keys[..|keys| - 1]);
    }
  }

  lemma {:induction false} RemoveAllLeaves(v: StateView, keys: seq<FileKey>, key: FileKey)
    requires key !in keys && key in v.files
    ensures key in RemoveAll(v, keys).files && RemoveAll(v, keys).files[key] == v.files[key]
  {
    if keys != [] {
      RemoveAllLeaves(v, keys[..|keys| - 1], key);
    }
  }

  lemma {:induction false} KeysOfDistinct(order: seq<FileKey>, client: nat)
    requires Distinct(order)
    ensures Distinct(KeysOf(order, client))
  {
    if order != [] {
      KeysOfDistinct(order[..|order| - 1], client);
      assert order[|order| - 1] !in order[..|order| - 1];
    }
  }

  class FileSplitterState {
    const batcher: Batcher
    var files: map<FileKey, FileState>
    var order: seq<FileKey>
    const accounts: CountTable
    var chunksReceived: nat
    var eofsReceived: nat
    ghost var repr: set<object>
    ghost var views: map<FileKey, FileView>

    ghost predicate Valid()
      reads this, repr
    {
      this !in repr && accounts !in repr && Sound(files, order, views, repr)
    }

    ghost function View(): StateView
      reads this, accounts
    {
      StateView(views, order, accounts.table, chunksReceived, eofsReceived)
    }

    constructor (cfg: Config)
      ensures Valid() && View() == StateView(map[], [], map[], 0, 0)
      ensures batcher.cfg == cfg && fresh(repr) && fresh(accounts)
    {
      batcher := new Batcher(cfg);
      accounts := new CountTable(map[]);
      files, order, chunksReceived, eofsReceived, views := map[], [], 0, 0, map[];
      repr := {};
    }

    /** The outputs of a change, computed on copies: nothing that existed before is touched. */
    method Simulate(change: Change) returns (r: Result<seq<Output>>)
      requires Valid()
      ensures Valid() && View() == old(View())
      ensures r == Outputs(batcher.cfg, old(View()), change)
    {
      match change {
        case ChunkChange(key, fileType, offset, payload) => r := SimulateChunk(key, fileType, offset, payload);
        case FileEofChange(key) =>
          if key !in files {
            return Ok([]);
          }
          r := SimulateFinish([key]);
        case ClientEofChange(client) => r := SimulateFinish(KeysOf(order, client));
        case AbortChange(_) => r := Ok([]);
      }
    }

    method SimulateChunk(key: FileKey, fileType: nat, offset: nat, payload: Bytes) returns (r: Result<seq<Output>>)
      requires Valid()
      ensures r == Outputs(batcher.cfg, old(View()), ChunkChange(key, fileType, offset, payload))
    {
      hide Chunked, Lists, FileState.View;
      assert key in files ==> Held(files[key], repr, views[key]);
      r := batcher.ChunkOnCopy(key, if key in files then files[key] else null, accounts, fileType, offset, payload);
    }

    method SimulateFinish(keys: seq<FileKey>) returns (r: Result<seq<Output>>)
      requires Valid() && forall k :: k in keys ==> k in files
      ensures var f := FinishAll(batcher.cfg, old(View()), keys);
              r == if f.Err? then Err else Ok(f.value.1)
    {
      hide Finishing, Lists, FileState.View;
      ghost var v := View();
      var counts := new CountTable(accounts.table);
      var out := new OutputList();
      for i := 0 to |keys|
        invariant fresh(counts) && fresh(out)
        invariant FinishAll(batcher.cfg, v, keys[..i]) == Ok((counts.table, out.items))
      {
        assert keys[..i + 1][..i] == keys[..i];
        assert keys[i] in keys && Held(files[keys[i]], repr, views[keys[i]]);
        var ok := batcher.FinishOnCopy(keys[i], files[keys[i]], counts, out);
        if !ok {
          FinishErrStays(batcher.cfg, v, keys, i + 1);
          return Err;
        }
      }
      assert keys[..|keys|] == keys;
      r := Ok(out.items);
    }

    ghost function FileParts(key: FileKey): set<object>
      requires key in files
      reads this, files[key]
    {
      {files[key], files[key].splitter, files[key].batchLines}
    }

    /** Running one file leaves the objects of all others alone. */
    twostate lemma OthersKept(key: FileKey)
      requires old(Valid()) && key in files
      requires files == old(files) && repr == old(repr) && views == old(views) && order == old(order)
      requires forall o: object ::
                 (o in old(repr) && o !in old(FileParts(key))) ==> unchanged(o)
      requires files[key].batchLines == old(files[key].batchLines) || files[key].batchLines !in old(repr)
      ensures Sound(files, order, views[key := files[key].View()], repr + {files[key].batchLines})
    {
      hide FileState.View, Lists;
      forall k | k in files && k != key
        ensures Held(files[k], repr, views[k]) && Separate(files[k], files[key])
      {
        assert old(Separate(files[k], files[key])) && old(Held(files[k], repr, views[k]));
      }
      forall a, b | a in files && b in files && a != b && a != key && b != key ensures Separate(files[a], files[b]) {
        assert old(Separate(files[a], files[b]));
        assert old(Separate(files[a], files[key])) && old(Separate(files[b], files[key]));
        assert old(Held(files[a], repr, views[a])) && old(Held(files[b], repr, views[b]));
      }
      hide Held, Separate;
      SoundMoved(files, order, views, repr, key);
    }

    method ChunkInPlace(key: FileKey, fileType: nat, offset: nat, payload: Bytes) returns (ok: bool)
      requires Valid() && key in files
      modifies this`repr, this`views, FileParts(key), accounts
      ensures fresh(repr - old(repr)) && Valid()
      ensures var r := Chunked(batcher.cfg, key, FileRun(old(views)[key], old(accounts.table), []), fileType, offset,
                               payload);
              ok == r.Ok? && (ok ==> views == old(views)[key := r.value.file] && accounts.table == r.value.counts)
    {
      var state := files[key];
      assert Held(state, repr, views[key]);
      hide Chunked, Lists, FileState.View, FileState.CoreView, LineSplitter.View, Sound;
      ghost var now;
      ok, now := batcher.RunChunk(key, state, fileType, offset, payload, accounts, null, []);
      OthersKept(key);
      repr, views := repr + {state.batchLines}, views[key := state.View()];
    }

    method FinishInPlace(key: FileKey, ghost sofar: seq<Output>) returns (ok: bool, ghost now: seq<Output>)
      requires Valid() && key in files
      modifies this`repr, this`views, FileParts(key), accounts
      ensures fresh(repr - old(repr)) && Valid()
      ensures var r := Finishing(batcher.cfg, key, FileRun(old(views)[key], old(accounts.table), sofar));
              ok == r.Ok? && (ok ==> accounts.table == r.value.counts && now == r.value.out)
      ensures key in views && views == old(views)[key := views[key]]
    {
      var state := files[key];
      assert Held(state, repr, views[key]);
      hide Finishing, Lists, FileState.View, FileState.CoreView, LineSplitter.View, Sound;
      ok, now := batcher.RunFinish(key, state, accounts, null, sofar);
      OthersKept(key);
      repr, views := repr + {state.batchLines}, views[key := state.View()];
    }

    /** Enters a new file made of new objects. */
    method Enter(key: FileKey, state: FileState)
      requires Valid() && key !in files
      requires state !in repr && state.splitter !in repr && state.batchLines !in repr
      modifies this`files, this`order, this`repr, this`views
      ensures Valid() && repr == old(repr) + {state, state.splitter, state.batchLines}
      ensures files == old(files)[key := state] && order == old(order) + [key]
      ensures views == old(views)[key := state.View()]
    {
      hide Sound;
      SoundEntered(files, order, views, repr, key, state);
      files, order, views := files[key := state], order + [key], views[key := state.View()];
      repr := repr + {state, state.splitter, state.batchLines};
    }

    /** Drops a file. */
    method Forget(key: FileKey)
      requires Valid()
      modifies this`files, this`order, this`views
      ensures Valid() && files == old(files) - {key}
      ensures order == Without(old(order), key) && views == old(views) - {key}
    {
      hide Sound;
      SoundForgotten(files, order, views, repr, key);
      files, order, views := files - {key}, Without(order, key), views - {key};
    }

    /** The file's state, created on its first chunk. */
    method StateFor(key: FileKey)
      requires Valid()
      modifies this`files, this`order, this`repr, this`views
      ensures fresh(repr - old(repr)) && Valid() && key in files && FileParts(key) <= repr
      ensures var v := old(View());
              View() == v.(files := v.files[key := FileOf(batcher.cfg, v, key)],
                           order := if key in v.files then v.order else v.order + [key])
    {
      hide Sound;
      SoundKeys(files, order, views, repr);
      if key !in files {
        var state := new FileState(batcher.cfg);
        Enter(key, state);
      } else {
        assert views[key := views[key]] == views;
      }
      SoundParts(files, order, views, repr, key);
    }

    /** Runs a chunk on the real file, created if need be, and the real counters, collecting nothing. */
    method ApplyChunk(key: FileKey, fileType: nat, offset: nat, payload: Bytes) returns (ok: bool)
      requires Valid()
      modifies this, repr, accounts
      ensures fresh(repr - old(repr)) && Valid()
      ensures var r := Applied(batcher.cfg, old(View()), ChunkChange(key, fileType, offset, payload));
              ok == r.Ok? && (ok ==> View() == r.value)
    {
      hide Chunked, Sound;
      StateFor(key);
      ghost var v := View();
      ok := ChunkInPlace(key, fileType, offset, payload);
      chunksReceived := chunksReceived + 1;
      assert ok ==> views == old(views)[key := views[key]];
    }

    /** Finishes the file in place and forgets it; `sofar` and `now` are the outputs collected on the way. */
    method FinishAndRemove(key: FileKey, ghost sofar: seq<Output>) returns (ok: bool, ghost now: seq<Output>)
      requires Valid() && key in views
      modifies this`files, this`order, this`repr, this`views, repr, accounts
      ensures fresh(repr - old(repr)) && Valid()
      ensures chunksReceived == old(chunksReceived) && eofsReceived == old(eofsReceived)
      ensures var r := Finishing(batcher.cfg, key, FileRun(old(views)[key], old(accounts.table), sofar));
              ok == r.Ok? && (ok ==> now == r.value.out && accounts.table == r.value.counts &&
                                     views == old(views) - {key} && order == Without(old(order), key))
    {
      hide Finishing, Sound, Without, Lists;
      SoundParts(files, order, views, repr, key);
      ok, now := FinishInPlace(key, sofar);
      OneLess(old(views), key, views[key]);
      if ok {
        Forget(key);
      }
    }

    /** Finishes the files one after the other. */
    method FinishEach(keys: seq<FileKey>) returns (ok: bool)
      requires Valid() && Distinct(keys) && forall k :: k in keys ==> k in views
      modifies this, repr, accounts
      ensures fresh(repr - old(repr)) && Valid()
      ensures var r := FinishAll(batcher.cfg, old(View()), keys);
              ok == r.Ok? && (ok ==> View() == RemoveAll(old(View()), keys).(counts := r.value.0))
    {
      hide Finishing, Sound;
      ghost var v := View();
      ghost var now: seq<Output> := [];
      for i := 0 to |keys|
        invariant fresh(repr - old(repr)) && Valid()
        invariant FinishAll(batcher.cfg, v, keys[..i]) == Ok((accounts.table, now))
        invariant View() == RemoveAll(v, keys[..i]).(counts := accounts.table)
      {
        assert keys[..i + 1][..i] == keys[..i];
        assert keys[i] in keys;
        RemoveAllLeaves(v, keys[..i], keys[i]);
        ok, now := FinishAndRemove(keys[i], now);
        if !ok {
          FinishErrStays(batcher.cfg, v, keys, i + 1);
          return;
        }
      }
      assert keys[..|keys|] == keys;
      ok := true;
    }

    method ForgetEach(keys: seq<FileKey>)
      requires Valid()
      modifies this`files, this`order, this`views
      ensures Valid() && View() == RemoveAll(old(View()), keys)
    {
      hide Sound;
      ghost var v := View();
      for i := 0 to |keys|
        invariant Valid() && View() == RemoveAll(v, keys[..i])
      {
        assert keys[..i + 1][..i] == keys[..i];
        Forget(keys[i]);
      }
      assert keys[..|keys|] == keys;
    }

    method ApplyFileEof(key: FileKey) returns (ok: bool)
      requires Valid()
      modifies this, repr, accounts
      ensures fresh(repr - old(repr)) && Valid()
      ensures var r := Applied(batcher.cfg, old(View()), FileEofChange(key));
              ok == r.Ok? && (ok ==> View() == r.value)
    {
      hide Sound, FinishAll, RemoveAll;
      SoundKeys(files, order, views, repr);
      RemoveAllKeeps(View(), if key in files then [key] else []);
      ok := FinishEach(if key in files then [key] else []);
      eofsReceived := eofsReceived + 1;
    }

    method ApplyClientEof(client: nat) returns (ok: bool)
      requires Valid()
      modifies this, repr, accounts
      ensures fresh(repr - old(repr)) && Valid()
      ensures var r := Applied(batcher.cfg, old(View()), ClientEofChange(client));
              ok == r.Ok? && (ok ==> View() == r.value)
    {
      hide Sound, FinishAll, RemoveAll, Distinct;
      SoundKeys(files, order, views, repr);
      KeysOfDistinct(order, client);
      RemoveAllKeeps(View(), KeysOf(order, client));
      ok := FinishEach(KeysOf(order, client));
      eofsReceived := eofsReceived + 1;
    }

    method ApplyAbort(client: nat)
      requires Valid()
      modifies this`files, this`order, this`views, accounts
      ensures Valid() && Applied(batcher.cfg, old(View()), AbortChange(client)) == Ok(View())
    {
      hide Sound, RemoveAll;
      ForgetEach(KeysOf(order, client));
      accounts.table := accounts.table - {client};
    }

    /** The single mutation path, live and on replay: every kind of change takes the whole state to the one the
        value functions give, other files and clients included. */
    method ApplyChange(change: Change) returns (ok: bool)
      requires Valid()
      modifies this, repr, accounts
      ensures fresh(repr - old(repr)) && Valid()
      ensures var r := Applied(batcher.cfg, old(View()), change);
              ok == r.Ok? && (ok ==> View() == r.value)
    {
      hide Sound, Applied;
      match change {
        case ChunkChange(key, fileType, offset, payload) => ok := ApplyChunk(key, fileType, offset, payload);
        case FileEofChange(key) => ok := ApplyFileEof(key);
        case ClientEofChange(client) => ok := ApplyClientEof(client);
        case AbortChange(client) =>
          ApplyAbort(client);
          ok := true;
      }
    }

    /** A live run: each change is simulated for its outputs, logged and applied. The first change that cannot be
        simulated is not applied. */
    method Live(changes: seq<Change>) returns (r: Result<seq<Output>>)
      requires Valid()
      modifies this, repr, accounts
      ensures fresh(repr - old(repr)) && Valid()
      ensures var f := RunAll(batcher.cfg, old(View()), changes);
              if f.Err? then r == Err else r == Ok(f.value.1) && View() == f.value.0
    {
      hide Sound, Applied, Outputs;
      ghost var v := View();
      var out: seq<Output> := [];
      for i := 0 to |changes|
        invariant fresh(repr - old(repr)) && Valid()
        invariant RunAll(batcher.cfg, v, changes[..i]) == Ok((View(), out))
      {
        assert changes[..i + 1][..i] == changes[..i];
        SimulatedIsApplied(batcher.cfg, View(), changes[i]);
        var more := Simulate(changes[i]);
        if more.Err? {
          RunErrStays(batcher.cfg, v, changes, i + 1);
          return Err;
        }
        var _ := ApplyChange(changes[i]);
        out := out + more.value;
      }
      assert changes[..|changes|] == changes;
      r := Ok(out);
    }

    /** Recovery: the logged changes are applied without simulating them. */
    method Replay(changes: seq<Change>) returns (ok: bool)
      requires Valid()
      modifies this, repr, accounts
      ensures fresh(repr - old(repr)) && Valid()
      ensures var f := RunAll(batcher.cfg, old(View()), changes);
              ok == f.Ok? && (ok ==> View() == f.value.0)
    {
      hide Sound, Applied, Outputs;
      ghost var v := View();
      ghost var out: seq<Output> := [];
      for i := 0 to |changes|
        invariant fresh(repr - old(repr)) && Valid()
        invariant RunAll(batcher.cfg, v, changes[..i]) == Ok((View(), out))
      {
        assert changes[..i + 1][..i] == changes[..i];
        SimulatedIsApplied(batcher.cfg, View(), changes[i]);
        ghost var more := Outputs(batcher.cfg, View(), changes[i]);
        out := out + if more.Ok? then more.value else [];
        ok := ApplyChange(changes[i]);
        if !ok {
          RunErrStays(batcher.cfg, v, changes, i + 1);
          return;
        }
      }
      assert changes[..|changes|] == changes;
      ok := true;
    }
  }

  /** A run from a state: where it leads and everything it emits, as a function of the logged changes alone. */
  function RunAll(cfg: Config, v: StateView, changes: seq<Change>): Result<(StateView, seq<Output>)> {
    if changes == [] then Ok((v, []))
    else
      var before, change := RunAll(cfg, v, changes[..|changes| - 1]), changes[|changes| - 1];
      if before.Err? then Err
      else
        var next, out := Applied(cfg, before.value.0, change), Outputs(cfg, before.value.0, change);
        if next.Err? || out.Err? then Err else Ok((next.value, before.value.1 + out.value))
  }

  lemma {:induction false} RunErrStays(cfg: Config, v: StateView, changes: seq<Change>, i: nat)
    requires i <= |changes| && RunAll(cfg, v, changes[..i]).Err?
    ensures RunAll(cfg, v, changes).Err?
  {
    hide Applied, Outputs;
    if i == |changes| {
      assert changes[..i] == changes;
    } else {
      assert changes[..|changes| - 1][..i] == changes[..i];
      RunErrStays(cfg, v, changes[..|changes| - 1], i);
    }
  }

  /** A run may be cut anywhere, a snapshot kept and the rest replayed: same state, and the outputs of the two parts
      follow each other. */
  lemma {:induction false} RunInTwoParts(cfg: Config, v: StateView, a: seq<Change>, b: seq<Change>)
    ensures var first, whole := RunAll(cfg, v, a), RunAll(cfg, v, a + b);
            whole == if first.Err? then Err
                     else
                       var rest := RunAll(cfg, first.value.0, b);
                       if rest.Err? then Err else Ok((rest.value.0, first.value.1 + rest.value.1))
  {
    hide Applied, Outputs;
    if b == [] {
      assert a + b == a;
      assert RunAll(cfg, v, a).Ok? ==> RunAll(cfg, v, a).value.1 + [] == RunAll(cfg, v, a).value.1;
    } else {
      assert (a + b)[..|a + b| - 1] == a + b[..|b| - 1];
      RunInTwoParts(cfg, v, a, b[..|b| - 1]);
      var first := RunAll(cfg, v, a);
      if first.Ok? {
        var rest := RunAll(cfg, first.value.0, b[..|b| - 1]);
        if rest.Ok? {
          var out := Outputs(cfg, rest.value.0, b[|b| - 1]);
          assert out.Ok? ==> first.value.1 + (rest.value.1 + out.value) == (first.value.1 + rest.value.1) + out.value;
        }
      }
    }
  }

  /** A change that could be simulated can be applied, and the other way round. */
  lemma SimulatedIsApplied(cfg: Config, v: StateView, change: Change)
    ensures Outputs(cfg, v, change).Ok? <==> Applied(cfg, v, change).Ok?
  {
    hide Chunked, Finishing;
    NothingToFinish(cfg, v);
  }

  lemma NothingToFinish(cfg: Config, v: StateView)
    ensures FinishAll(cfg, v, []) == Ok((v.counts, []))
  {
  }

  lemma {:induction false} FinishErrStays(cfg: Config, v: StateView, keys: seq<FileKey>, i: nat)
    requires i <= |keys| && FinishAll(cfg, v, keys[..i]).Err?
    ensures FinishAll(cfg, v, keys).Err?
  {
    if i == |keys| {
      assert keys[..i] == keys;
    } else {
      assert keys[..|keys| - 1][..i] == keys[..i];
      FinishErrStays(cfg, v, keys[..|keys| - 1], i);
    }
  }
}
