/** The end of a client's stream: all its open files are finished, in the order of their first chunks. */
module FileEnds {
  import opened Prelude
  import opened LineSplitting
  import opened FileSplitting
  import opened FileSplitterStates
  import opened FileRuns

  // ---------- which files are open ----------

  /** The keys with a property, in order. */
  ghost function Only(keys: seq<FileKey>, p: FileKey -> bool): seq<FileKey> {
    if keys == [] then []
    else
      var before, last := Only(keys[..|keys| - 1], p), keys[|keys| - 1];
      if p(last) then before + [last] else before
  }

  function Of(client: nat): FileKey -> bool { (k: FileKey) => k.client == client }

  function NotOf(client: nat): FileKey -> bool { (k: FileKey) => k.client != client }

  function Not(key: FileKey): FileKey -> bool { (k: FileKey) => k != key }

  function NotIn(keys: seq<FileKey>): FileKey -> bool { (k: FileKey) => k !in keys }

  ghost function OpenAfter(before: seq<FileKey>, change: Change): seq<FileKey> {
    match change
    case ChunkChange(key, _, _, _) => if key in before then before else before + [key]
    case FileEofChange(key) => Only(before, Not(key))
    case ClientEofChange(client) => Only(before, NotOf(client))
    case AbortChange(client) => Only(before, NotOf(client))
  }

  /** Files with a chunk and no end since, by first chunk. */
  ghost function OpenFiles(changes: seq<Change>): seq<FileKey> {
    if changes == [] then [] else OpenAfter(OpenFiles(changes[..|changes| - 1]), changes[|changes| - 1])
  }

  ghost predicate Distinct(keys: seq<FileKey>) {
    forall i, j :: 0 <= i < j < |keys| ==> keys[i] != keys[j]
  }

  lemma {:induction false} OnlyHas(keys: seq<FileKey>, p: FileKey -> bool)
    ensures forall k :: k in Only(keys, p) <==> k in keys && p(k)
    ensures Distinct(keys) ==> Distinct(Only(keys, p))
  {
    if keys != [] {
      var init, last := keys[..|keys| - 1], keys[|keys| - 1];
      OnlyHas(init, p);
      assert keys == init + [last];
      assert forall i :: 0 <= i < |init| ==> init[i] == keys[i];
      if Distinct(keys) { assert last !in init; }
    }
  }

  lemma {:induction false} SameOnly(keys: seq<FileKey>, p: FileKey -> bool, q: FileKey -> bool)
    requires forall k :: k in keys ==> p(k) == q(k)
    ensures Only(keys, p) == Only(keys, q)
  {
    if keys != [] {
      SameOnly(keys[..|keys| - 1], p, q);
    }
  }

  lemma {:induction false} OnlyTwice(keys: seq<FileKey>, p: FileKey -> bool, q: FileKey -> bool, both: FileKey -> bool)
    requires forall k :: both(k) <==> p(k) && q(k)
    ensures Only(Only(keys, p), q) == Only(keys, both)
  {
    if keys != [] {
      var init, last := keys[..|keys| - 1], keys[|keys| - 1];
      OnlyTwice(init, p, q, both);
      if p(last) { assert (Only(init, p) + [last])[..|Only(init, p)|] == Only(init, p); }
    }
  }

  lemma {:induction false} WithoutIsOnly(keys: seq<FileKey>, key: FileKey)
    ensures Without(keys, key) == Only(keys, Not(key))
  {
    if keys != [] {
      WithoutIsOnly(keys[..|keys| - 1], key);
    }
  }

  lemma {:induction false} KeysOfIsOnly(keys: seq<FileKey>, client: nat)
    ensures KeysOf(keys, client) == Only(keys, Of(client))
  {
    if keys != [] {
      KeysOfIsOnly(keys[..|keys| - 1], client);
    }
  }

  lemma {:induction false} OnlyAll(keys: seq<FileKey>, p: FileKey -> bool)
    requires forall k :: k in keys ==> p(k)
    ensures Only(keys, p) == keys
  {
    if keys != [] {
      OnlyAll(keys[..|keys| - 1], p);
      assert keys == keys[..|keys| - 1] + [keys[|keys| - 1]];
    }
  }

  /** Forgetting keys leaves the other files, with their content and in their order. */
  lemma {:induction false} RemovedAre(v: StateView, keys: seq<FileKey>)
    ensures var r := RemoveAll(v, keys);
            && (forall k :: k in r.files <==> k in v.files && k !in keys)
            && (forall k :: k in r.files ==> r.files[k] == v.files[k])
            && r.order == Only(v.order, NotIn(keys))
  {
    if keys == [] {
      OnlyAll(v.order, NotIn(keys));
    } else {
      var init, last := keys[..|keys| - 1], keys[|keys| - 1];
      RemovedAre(v, init);
      assert keys == init + [last];
      WithoutIsOnly(RemoveAll(v, init).order, last);
      OnlyTwice(v.order, NotIn(init), Not(last), NotIn(keys));
    }
  }

  /** After the end of a client's stream, or its abort, no file of the client is held; the others are as before. */
  lemma ClientIsGone(cfg: Config, v: StateView, change: Change)
    requires change.ClientEofChange? || change.AbortChange?
    requires Applied(cfg, v, change).Ok? && forall k :: k in v.files <==> k in v.order
    ensures var w := Applied(cfg, v, change).value;
            && (forall k :: k in w.files <==> k in v.files && k.client != change.client)
            && (forall k :: k in w.files ==> w.files[k] == v.files[k])
            && w.order == Only(v.order, NotOf(change.client))
  {
    hide FinishAll, RemoveAll;
    var keys := KeysOf(v.order, change.client);
    RemovedAre(v, keys);
    SameOnly(v.order, NotIn(keys), NotOf(change.client));
  }

  function Chunks(changes: seq<Change>): nat {
    if changes == [] then 0
    else Chunks(changes[..|changes| - 1]) + if changes[|changes| - 1].ChunkChange? then 1 else 0
  }

  function Ends(changes: seq<Change>): nat {
    if changes == [] then 0
    else
      var last := changes[|changes| - 1];
      Ends(changes[..|changes| - 1]) + if last.FileEofChange? || last.ClientEofChange? then 1 else 0
  }

  /** The state holds the open files, by first chunk, and counts chunks and ends. */
  ghost predicate Holds(v: StateView, open: seq<FileKey>, chunks: nat, ends: nat) {
    && v.order == open && Distinct(open) && (forall k :: k in v.files <==> k in open)
    && v.chunks == chunks && v.eofs == ends
  }

  lemma HoldsNext(cfg: Config, v: StateView, open: seq<FileKey>, change: Change)
    requires Holds(v, open, v.chunks, v.eofs) && Applied(cfg, v, change).Ok?
    ensures Holds(Applied(cfg, v, change).value, OpenAfter(open, change),
                  v.chunks + (if change.ChunkChange? then 1 else 0),
                  v.eofs + if change.FileEofChange? || change.ClientEofChange? then 1 else 0)
  {
    hide Chunked, FinishAll, RemoveAll, Only;
    match change
    case ChunkChange(_, _, _, _) =>
    case FileEofChange(key) =>
      var gone := if key in v.files then [key] else [];
      RemovedAre(v, gone);
      RemoveAllKeeps(v, gone);
      SameOnly(v.order, NotIn(gone), Not(key));
      OnlyHas(v.order, Not(key));
    case ClientEofChange(client) => ClientHolds(cfg, v, open, change);
    case AbortChange(client) => ClientHolds(cfg, v, open, change);
  }

  lemma ClientHolds(cfg: Config, v: StateView, open: seq<FileKey>, change: Change)
    requires change.ClientEofChange? || change.AbortChange?
    requires Holds(v, open, v.chunks, v.eofs) && Applied(cfg, v, change).Ok?
    ensures Holds(Applied(cfg, v, change).value, OpenAfter(open, change), v.chunks,
                  v.eofs + if change.ClientEofChange? then 1 else 0)
  {
    hide FinishAll, RemoveAll, Only;
    RemoveAllKeeps(v, KeysOf(v.order, change.client));
    ClientIsGone(cfg, v, change);
    OnlyHas(v.order, NotOf(change.client));
  }

  lemma {:induction false} OpenFilesAreHeld(cfg: Config, changes: seq<Change>)
    requires RunAll(cfg, EMPTY, changes).Ok?
    ensures Holds(RunAll(cfg, EMPTY, changes).value.0, OpenFiles(changes), Chunks(changes), Ends(changes))
  {
    if changes != [] {
      hide Applied, Outputs, Holds;
      var init, last := changes[..|changes| - 1], changes[|changes| - 1];
      assert changes == init + [last];
      RunLast(cfg, init, last);
      OpenFilesAreHeld(cfg, init);
      HeldCounts(RunAll(cfg, EMPTY, init).value.0, OpenFiles(init), Chunks(init), Ends(init));
      HoldsNext(cfg, RunAll(cfg, EMPTY, init).value.0, OpenFiles(init), last);
    }
  }

  lemma HeldCounts(v: StateView, open: seq<FileKey>, chunks: nat, ends: nat)
    requires Holds(v, open, chunks, ends)
    ensures v.chunks == chunks && v.eofs == ends
  {
  }

  // ---------- the end of a client is the end of its files ----------

  function EndOf(keys: seq<FileKey>): seq<Change> {
    seq(|keys|, i requires 0 <= i < |keys| => FileEofChange(keys[i]))
  }

  lemma ClosingOut(cfg: Config, key: FileKey, a: Work, b: Work, out: seq<Output>)
    requires Shifted(a, b, out) && a.counts == b.counts
    ensures Shifted(Closing(cfg, key, a), Closing(cfg, key, b), out)
    ensures Closing(cfg, key, a).counts == Closing(cfg, key, b).counts
  {
    FlushedShift(key, a, b, out);
    hide Flushed;
    var y := Flushed(key, b);
    assert forall o :: out + (y.out + [o]) == (out + y.out) + [o];
  }

  /** Outputs collected before do not matter. */
  lemma FinishingOut(cfg: Config, key: FileKey, f: FileView, counts: map<nat, nat>, out: seq<Output>)
    ensures var r, s := Finishing(cfg, key, FileRun(f, counts, out)), Finishing(cfg, key, FileRun(f, counts, []));
            && (r.Ok? <==> s.Ok?)
            && (r.Ok? ==> r.value.counts == s.value.counts && r.value.out == out + s.value.out)
  {
    hide AllLined, Finished, Closing;
    var done := Finished(f.splitter);
    if done.Ok? {
      assert out + [] == out;
      var a, b := Work(f.core, counts, out), Work(f.core, counts, []);
      AllLinedShift(cfg, key, a, b, out, done.value.1);
      var w, u := AllLined(cfg, key, a, done.value.1), AllLined(cfg, key, b, done.value.1);
      if w.Ok? { ClosingOut(cfg, key, w.value, u.value, out); }
    }
  }

  /** Finishing keys at once, or one after the other as changes of their own. */
  ghost predicate SameEnds(cfg: Config, v: StateView, keys: seq<FileKey>) {
    var f, r := FinishAll(cfg, v, keys), RunAll(cfg, v, EndOf(keys));
    && (f.Ok? <==> r.Ok?)
    && (f.Ok? ==>
          && r.value.1 == f.value.1
          && r.value.0 == RemoveAll(v, keys).(counts := f.value.0, eofs := v.eofs + |keys|))
  }

  lemma OneEnd(cfg: Config, v: StateView, key: FileKey)
    requires key in v.files
    ensures var r := Finishing(cfg, key, FileRun(v.files[key], v.counts, []));
            && Outputs(cfg, v, FileEofChange(key)) == (if r.Err? then Err else Ok(r.value.out))
            && Applied(cfg, v, FileEofChange(key)) ==
               if r.Err? then Err
               else Ok(v.(files := v.files - {key}, order := Without(v.order, key), counts := r.value.counts,
                          eofs := v.eofs + 1))
  {
    hide Finishing;
    assert [key][..0] == [];
    NothingToFinish(cfg, v);
    assert RemoveAll(v, []) == v;
    assert RemoveAll(v, [key]) == v.(files := v.files - {key}, order := Without(v.order, key));
  }

  lemma {:induction false} EndsOneByOne(cfg: Config, v: StateView, keys: seq<FileKey>)
    requires Distinct(keys) && forall k :: k in keys ==> k in v.files
    ensures SameEnds(cfg, v, keys)
  {
    hide Finishing, Applied, Outputs;
    if keys == [] {
      NothingToFinish(cfg, v);
    } else {
      var init, key := keys[..|keys| - 1], keys[|keys| - 1];
      EndsOneByOne(cfg, v, init);
      assert EndOf(keys)[..|init|] == EndOf(init);
      var f := FinishAll(cfg, v, init);
      if f.Ok? {
        var w := RunAll(cfg, v, EndOf(init)).value.0;
        assert key !in init;
        RemovedAre(v, init);
        RemoveAllKeeps(v, init);
        OneEnd(cfg, w, key);
        FinishingOut(cfg, key, v.files[key], f.value.0, f.value.1);
      }
    }
  }

  /** The end of a client's stream emits, and leaves behind, what ending its open files one by one does, in the order of
      their first chunks; it counts as one end. */
  lemma ClientEndIsFileEnds(cfg: Config, changes: seq<Change>, client: nat)
    requires RunAll(cfg, EMPTY, changes).Ok?
    ensures var v, keys := RunAll(cfg, EMPTY, changes).value.0, Only(OpenFiles(changes), Of(client));
            var out, w := Outputs(cfg, v, ClientEofChange(client)), Applied(cfg, v, ClientEofChange(client));
            var r := RunAll(cfg, v, EndOf(keys));
            && (out.Ok? <==> r.Ok?) && (w.Ok? <==> r.Ok?)
            && (r.Ok? ==> out.value == r.value.1 && w.value == r.value.0.(eofs := v.eofs + 1))
  {
    var v, keys := RunAll(cfg, EMPTY, changes).value.0, Only(OpenFiles(changes), Of(client));
    OpenFilesAreHeld(cfg, changes);
    OnlyHas(v.order, Of(client));
    KeysOfIsOnly(v.order, client);
    EndsOneByOne(cfg, v, keys);
    hide RunAll, FinishAll, RemoveAll, OpenFiles;
  }

  // ---------- a file ended by the end of its client ----------

  /** Ends of other files bring a file nothing. */
  lemma {:induction false} EndsAside(cfg: Config, changes: seq<Change>, keys: seq<FileKey>, key: FileKey)
    requires key !in keys && RunAll(cfg, EMPTY, changes + EndOf(keys)).Ok?
    ensures OwnChunks(changes + EndOf(keys), key) == OwnChunks(changes, key)
    ensures OwnOutputs(cfg, changes + EndOf(keys), key) == OwnOutputs(cfg, changes, key)
  {
    hide RunAll, OwnChunks, OwnOutputs;
    if keys == [] {
      assert changes + EndOf(keys) == changes;
    } else {
      var init, end := keys[..|keys| - 1], FileEofChange(keys[|keys| - 1]);
      var before := changes + EndOf(init);
      assert changes + EndOf(keys) == before + [end];
      RunLast(cfg, before, end);
      EndsAside(cfg, changes, init, key);
      OwnLast(cfg, before, end, key);
      assert OwnChunks(before, key) + [] == OwnChunks(before, key);
      assert OwnOutputs(cfg, before, key) + [] == OwnOutputs(cfg, before, key);
    }
  }

  /** The file's place among the open files of its client, and the run that has ended those before it. */
  ghost predicate EndedAt(cfg: Config, changes: seq<Change>, key: FileKey, n: nat, a: seq<Output>, own: seq<Output>,
                          b: seq<Output>) {
    var keys := Only(OpenFiles(changes), Of(key.client));
    && n < |keys| && keys[n] == key && RunAll(cfg, EMPTY, changes).Ok?
    && var v := RunAll(cfg, EMPTY, changes).value.0;
       var before := RunAll(cfg, v, EndOf(keys[..n]));
       && before.Ok? && a == before.value.1
       && Outputs(cfg, before.value.0, FileEofChange(key)) == Ok(own)
       && Outputs(cfg, v, ClientEofChange(key.client)) == Ok(a + own + b)
  }

  lemma EndsInTurn(cfg: Config, v: StateView, keys: seq<FileKey>, n: nat)
    requires RunAll(cfg, v, EndOf(keys)).Ok? && n < |keys|
    ensures var before := RunAll(cfg, v, EndOf(keys[..n]));
            && before.Ok? && Outputs(cfg, before.value.0, FileEofChange(keys[n])).Ok?
            && exists b :: RunAll(cfg, v, EndOf(keys)).value.1 ==
                           before.value.1 + Outputs(cfg, before.value.0, FileEofChange(keys[n])).value + b
  {
    hide Applied, Outputs;
    var end := [FileEofChange(keys[n])];
    assert EndOf(keys) == EndOf(keys[..n]) + (end + EndOf(keys[n + 1..]));
    RunInTwoParts(cfg, v, EndOf(keys[..n]), end + EndOf(keys[n + 1..]));
    var before := RunAll(cfg, v, EndOf(keys[..n])).value;
    RunInTwoParts(cfg, before.0, end, EndOf(keys[n + 1..]));
    OneChange(cfg, before.0, end[0]);
    var rest := RunAll(cfg, RunAll(cfg, before.0, end).value.0, EndOf(keys[n + 1..])).value;
    var own := Outputs(cfg, before.0, end[0]).value;
    assert before.1 + (own + rest.1) == before.1 + own + rest.1;
  }

  lemma OneChange(cfg: Config, v: StateView, change: Change)
    ensures var r := RunAll(cfg, v, [change]);
            && (r.Ok? <==> Applied(cfg, v, change).Ok? && Outputs(cfg, v, change).Ok?)
            && (r.Ok? ==> r.value == (Applied(cfg, v, change).value, Outputs(cfg, v, change).value))
  {
    hide Applied, Outputs;
    assert [change][..0] == [];
    assert RunAll(cfg, v, []) == Ok((v, []));
    assert Outputs(cfg, v, change).Ok? ==> [] + Outputs(cfg, v, change).value == Outputs(cfg, v, change).value;
  }

  /** A file with chunks and no end so far is one of the open files of its client. */
  lemma IsOpen(cfg: Config, changes: seq<Change>, key: FileKey, fileType: nat) returns (n: nat)
    requires RunAll(cfg, EMPTY, changes).Ok? && OwnChunks(changes, key) != []
    requires forall i :: 0 <= i < |changes| ==> Alongside(changes[i], key, fileType)
    ensures var keys := Only(OpenFiles(changes), Of(key.client));
            n < |keys| && keys[n] == key && key !in keys[..n]
  {
    AloneInRun(cfg, changes, key, fileType);
    OpenFilesAreHeld(cfg, changes);
    OnlyHas(OpenFiles(changes), Of(key.client));
    hide RunAll, OpenFiles, OwnChunks, Only;
    var keys := Only(OpenFiles(changes), Of(key.client));
    n :| 0 <= n < |keys| && keys[n] == key;
  }

  lemma EndedByClient(cfg: Config, changes: seq<Change>, key: FileKey, fileType: nat)
    returns (n: nat, a: seq<Output>, own: seq<Output>, b: seq<Output>)
    requires OwnChunks(changes, key) != []
    requires forall i :: 0 <= i < |changes| ==> Alongside(changes[i], key, fileType)
    requires RunAll(cfg, EMPTY, changes + [ClientEofChange(key.client)]).Ok?
    ensures EndedAt(cfg, changes, key, n, a, own, b)
    ensures var ends := EndOf(Only(OpenFiles(changes), Of(key.client))[..n]);
            && RunAll(cfg, EMPTY, changes + ends + [FileEofChange(key)]).Ok?
            && RunAll(cfg, EMPTY, changes + ends).Ok?
            && RunAll(cfg, EMPTY, changes + ends).value.0 ==
               RunAll(cfg, RunAll(cfg, EMPTY, changes).value.0, ends).value.0
            && OwnChunks(changes + ends, key) == OwnChunks(changes, key)
            && OwnOutputs(cfg, changes + ends, key) == OwnOutputs(cfg, changes, key)
            && forall i :: 0 <= i < |changes + ends| ==> Alongside((changes + ends)[i], key, fileType)
  {
    hide Applied, Outputs, OwnChunks, OwnOutputs, OpenFiles, Only, Alongside;
    RunLast(cfg, changes, ClientEofChange(key.client));
    n := IsOpen(cfg, changes, key, fileType);
    ClientEndIsFileEnds(cfg, changes, key.client);
    var v, keys := RunAll(cfg, EMPTY, changes).value.0, Only(OpenFiles(changes), Of(key.client));
    EndsInTurn(cfg, v, keys, n);
    var ends := EndOf(keys[..n]);
    a := RunAll(cfg, v, ends).value.1;
    own := Outputs(cfg, RunAll(cfg, v, ends).value.0, FileEofChange(key)).value;
    b :| RunAll(cfg, v, EndOf(keys)).value.1 == a + own + b;
    RunInTwoParts(cfg, EMPTY, changes, ends);
    hide RunAll;
    EndsAside(cfg, changes, keys[..n], key);
    EndRuns(cfg, changes + ends, key);
    forall i | 0 <= i < |changes + ends| ensures Alongside((changes + ends)[i], key, fileType) {
      if i >= |changes| { OtherEnd(keys[i - |changes|], key, fileType); }
    }
  }

  lemma OtherEnd(k: FileKey, key: FileKey, fileType: nat)
    requires k != key
    ensures Alongside(FileEofChange(k), key, fileType)
  {
  }

  lemma EndRuns(cfg: Config, changes: seq<Change>, key: FileKey)
    requires RunAll(cfg, EMPTY, changes).Ok?
    requires Outputs(cfg, RunAll(cfg, EMPTY, changes).value.0, FileEofChange(key)).Ok?
    ensures RunAll(cfg, EMPTY, changes + [FileEofChange(key)]).Ok?
  {
    hide Applied, Outputs;
    SimulatedIsApplied(cfg, RunAll(cfg, EMPTY, changes).value.0, FileEofChange(key));
    assert (changes + [FileEofChange(key)])[..|changes|] == changes;
  }

  /** A file that the end of its client's stream ends emits its content all the same: what its chunks emitted, followed
      by its part of the outputs of that end, which comes after the parts of the client's files opened before it. */
  lemma ClientEndEmitsContent(cfg: Config, changes: seq<Change>, key: FileKey, fileType: nat)
    returns (n: nat, a: seq<Output>, own: seq<Output>, b: seq<Output>)
    requires !(fileType == ACCOUNTS && cfg.accountsEnabled) && OwnChunks(changes, key) != []
    requires forall i :: 0 <= i < |changes| ==> Alongside(changes[i], key, fileType)
    requires RunAll(cfg, EMPTY, changes + [ClientEofChange(key.client)]).Ok?
    ensures EndedAt(cfg, changes, key, n, a, own, b)
    ensures var w := FileWork(cfg, key, fileType, map[], Concat(OwnChunks(changes, key)));
            w.Ok? && OwnOutputs(cfg, changes, key) + own == w.value.out
  {
    hide RunAll, OwnChunks, OwnOutputs, OpenFiles, Only, FileWork, Alongside, Applied, Outputs;
    n, a, own, b := EndedByClient(cfg, changes, key, fileType);
    var before := changes + EndOf(Only(OpenFiles(changes), Of(key.client))[..n]);
    FileEmitsItsContent(cfg, before, key, fileType);
    OwnLast(cfg, before, FileEofChange(key), key);
  }

  /** The same for account files: the batches of the content, and a total of the client's account batches since its last
      account end of stream, those of its files ended just before included. */
  lemma ClientEndEmitsAccounts(cfg: Config, changes: seq<Change>, key: FileKey)
    returns (n: nat, a: seq<Output>, own: seq<Output>, b: seq<Output>)
    requires cfg.accountsEnabled && OwnChunks(changes, key) != []
    requires forall i :: 0 <= i < |changes| ==> Alongside(changes[i], key, ACCOUNTS)
    requires RunAll(cfg, EMPTY, changes + [ClientEofChange(key.client)]).Ok?
    ensures EndedAt(cfg, changes, key, n, a, own, b) && own != []
    ensures var w := FileWork(cfg, key, ACCOUNTS, map[], Concat(OwnChunks(changes, key)));
            w.Ok? && SameButTotal(OwnOutputs(cfg, changes, key) + own, w.value.out)
    ensures var before := changes + EndOf(Only(OpenFiles(changes), Of(key.client))[..n]);
            own[|own| - 1] ==
            EofOut(ACCOUNTS_EDGE, Since(AccountBatches(cfg, before, key.client), own[..|own| - 1]))
  {
    hide RunAll, OwnChunks, OwnOutputs, OpenFiles, Only, FileWork, Alongside, Applied, Outputs, Since, AccountBatches;
    n, a, own, b := EndedByClient(cfg, changes, key, ACCOUNTS);
    var before := changes + EndOf(Only(OpenFiles(changes), Of(key.client))[..n]);
    AccountFileEmitsItsContent(cfg, before, key);
    OwnLast(cfg, before, FileEofChange(key), key);
  }
}
