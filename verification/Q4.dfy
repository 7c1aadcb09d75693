/** Accounts joined by many two-step paths: the plain row join, and the pruned computation on interned ids. */
module Q4 {
  import opened Prelude
  import opened Text
  import opened Filters

  const SOURCE_MIN_DISTINCT_TARGETS: nat := 5
  const PAIR_MIN_PATH_ROWS: nat := 5

  type Account = (string, string)

  datatype Row = Row(from: Account, to: Account)

  /** Dollar transactions of the first September window. */
  predicate Keeps(tx: Transaction) {
    && Stripped(tx.currency) == "US Dollar"
    && AtMost("2022/09/01", Stripped(tx.date)) && AtMost(Stripped(tx.date), "2022/09/06")
  }

  function RowOf(tx: Transaction): Row {
    Row((BankId(tx.fromBank), Stripped(tx.fromAccount)), (BankId(tx.toBank), Stripped(tx.toAccount)))
  }

  function Kept(txs: seq<Transaction>): seq<Row> {
    if txs == [] then []
    else if Keeps(txs[|txs| - 1]) then Kept(txs[..|txs| - 1]) + [RowOf(txs[|txs| - 1])]
    else Kept(txs[..|txs| - 1])
  }

  // ---------- the plain definition ----------

  ghost function Targets(rows: seq<Row>, s: Account): set<Account> {
    set i | 0 <= i < |rows| && rows[i].from == s :: rows[i].to
  }

  /** Sources with more than five distinct targets. */
  ghost predicate Qualifies(rows: seq<Row>, s: Account) {
    |Targets(rows, s)| > SOURCE_MIN_DISTINCT_TARGETS
  }

  /** Rows `i` and `j`, both of qualifying sources, lead from `a` to `b`. */
  ghost predicate Joined(rows: seq<Row>, i: nat, j: nat, a: Account, b: Account)
    requires i < |rows| && j < |rows|
  {
    && Qualifies(rows, rows[i].from) && Qualifies(rows, rows[j].from)
    && rows[i].from == a && rows[i].to == rows[j].from && rows[j].to == b
  }

  /** Rows among the first `j` that join row `i`. */
  ghost function JoinsOf(rows: seq<Row>, i: nat, j: nat, a: Account, b: Account): nat
    requires i < |rows| && j <= |rows|
  {
    if j == 0 then 0 else JoinsOf(rows, i, j - 1, a, b) + if Joined(rows, i, j - 1, a, b) then 1 else 0
  }

  /** Joined row pairs whose first row is among the first `i`. */
  ghost function Paths(rows: seq<Row>, i: nat, a: Account, b: Account): nat
    requires i <= |rows|
  {
    if i == 0 then 0 else Paths(rows, i - 1, a, b) + JoinsOf(rows, i - 1, |rows|, a, b)
  }

  ghost predicate PairQualifies(rows: seq<Row>, a: Account, b: Account) {
    a != b && Paths(rows, |rows|, a, b) > PAIR_MIN_PATH_ROWS
  }

  /** The accounts of qualifying pairs. */
  ghost predicate InAnswer(rows: seq<Row>, x: Account) {
    exists a, b :: PairQualifies(rows, a, b) && (x == a || x == b)
  }

  /** Normalized bank and account of the targets of every kept transaction from the source, on the file itself. */
  ghost function FileTargets(txs: seq<Transaction>, bank: string, account: string): set<Account> {
    if txs == [] then {}
    else
      var before, tx := FileTargets(txs[..|txs| - 1], bank, account), txs[|txs| - 1];
      if Keeps(tx) && BankId(tx.fromBank) == bank && Stripped(tx.fromAccount) == account
      then before + {(BankId(tx.toBank), Stripped(tx.toAccount))} else before
  }

  lemma {:induction false} TargetsOnFile(txs: seq<Transaction>, bank: string, account: string)
    ensures Targets(Kept(txs), (bank, account)) == FileTargets(txs, bank, account)
  {
    hide Keeps, BankId, Stripped;
    if txs == [] {
      assert Targets([], (bank, account)) == {};
    } else {
      var init, last := txs[..|txs| - 1], txs[|txs| - 1];
      TargetsOnFile(init, bank, account);
      TargetsSnoc(Kept(init), RowOf(last), (bank, account));
    }
  }

  // ---------- path counts as products ----------

  /** Rows of `part` from `s` to `t`, counted only if `s` qualifies in `rows`. */
  ghost function Links(rows: seq<Row>, part: seq<Row>, s: Account, t: Account): nat {
    if part == [] then 0
    else Links(rows, part[..|part| - 1], s, t) +
         if part[|part| - 1] == Row(s, t) && Qualifies(rows, s) then 1 else 0
  }

  lemma {:induction false} JoinsAreLinks(rows: seq<Row>, i: nat, j: nat, a: Account, b: Account)
    requires i < |rows| && j <= |rows|
    ensures JoinsOf(rows, i, j, a, b) ==
            if rows[i].from == a && Qualifies(rows, a) then Links(rows, rows[..j], rows[i].to, b) else 0
  {
    if j > 0 {
      JoinsAreLinks(rows, i, j - 1, a, b);
      assert rows[..j][..j - 1] == rows[..j - 1];
    }
  }

  /** Joined row pairs whose middle account is in `via`. */
  ghost function PathsVia(rows: seq<Row>, via: set<Account>, i: nat, a: Account, b: Account): nat
    requires i <= |rows|
  {
    if i == 0 then 0
    else PathsVia(rows, via, i - 1, a, b) + if rows[i - 1].to in via then JoinsOf(rows, i - 1, |rows|, a, b) else 0
  }

  /** A further middle account contributes the product of its incoming and outgoing rows. */
  lemma {:induction false} PathsThrough(rows: seq<Row>, via: set<Account>, m: Account, i: nat, a: Account, b: Account)
    requires i <= |rows| && m !in via
    ensures PathsVia(rows, via + {m}, i, a, b) ==
            PathsVia(rows, via, i, a, b) + Links(rows, rows[..i], a, m) * Links(rows, rows, m, b)
  {
    hide Qualifies, JoinsOf;
    if i > 0 {
      PathsThrough(rows, via, m, i - 1, a, b);
      JoinsAreLinks(rows, i - 1, |rows|, a, b);
      assert rows[..|rows|] == rows;
      LinksNext(rows, i - 1, a, m);
      hide Links;
      var c, w := Links(rows, rows[..i - 1], a, m), Links(rows, rows, m, b);
      assert (c + 1) * w == c * w + w;
    }
  }

  lemma LinksNext(rows: seq<Row>, i: nat, s: Account, t: Account)
    requires i < |rows|
    ensures Links(rows, rows[..i + 1], s, t) ==
            Links(rows, rows[..i], s, t) + if rows[i] == Row(s, t) && Qualifies(rows, s) then 1 else 0
  {
    hide Qualifies;
    assert rows[..i + 1][..i] == rows[..i];
  }

  /** Middle accounts without incoming or outgoing rows contribute nothing. */
  lemma {:induction false} PathsNeedMiddle(rows: seq<Row>, via: set<Account>, i: nat, a: Account, b: Account)
    requires i <= |rows|
    requires forall m :: m !in via ==> Links(rows, rows, a, m) == 0 || Links(rows, rows, m, b) == 0
    ensures PathsVia(rows, via, i, a, b) == Paths(rows, i, a, b)
  {
    if i > 0 {
      PathsNeedMiddle(rows, via, i - 1, a, b);
      JoinsAreLinks(rows, i - 1, |rows|, a, b);
      assert rows[..|rows|] == rows;
      var m := rows[i - 1].to;
      if m !in via && rows[i - 1].from == a && Qualifies(rows, a) {
        LinkCounts(rows, rows, i - 1);
      }
    }
  }

  lemma {:induction false} LinkCounts(rows: seq<Row>, part: seq<Row>, i: nat)
    requires i < |part| && Qualifies(rows, part[i].from)
    ensures Links(rows, part, part[i].from, part[i].to) > 0
  {
    var n := |part| - 1;
    if i < n {
      LinkCounts(rows, part[..n], i);
    }
  }

  // ---------- counting pairs on ids ----------

  type Table = map<nat, map<nat, nat>>

  function Entry(t: Table, x: nat, y: nat): nat { Get(Get(t, x, map[]), y, 0) }

  function Key(a: nat, b: nat, stride: nat): nat { a * stride + b }

  lemma KeyBelow(a: nat, b: nat, c: nat, d: nat, stride: nat)
    requires b < stride && a < c
    ensures Key(a, b, stride) < Key(c, d, stride)
  {
    assert (a + 1) * stride <= c * stride;
    assert (a + 1) * stride == a * stride + stride;
  }

  lemma KeysDiffer(a: nat, b: nat, c: nat, d: nat, stride: nat)
    requires b < stride && d < stride && Key(a, b, stride) == Key(c, d, stride)
    ensures a == c && b == d
  {
    if a < c { KeyBelow(a, b, c, d, stride); }
    if c < a { KeyBelow(c, d, a, b, stride); }
  }

  /** Products of incoming and outgoing rows summed over the middles. */
  function Weight(incoming: Table, outgoing: Table, middles: seq<nat>, a: nat, b: nat): nat {
    if middles == [] then 0
    else
      var m := middles[|middles| - 1];
      Weight(incoming, outgoing, middles[..|middles| - 1], a, b) + Entry(incoming, m, a) * Entry(outgoing, m, b)
  }

  /** The running pair counts, the pairs that have qualified and their accounts. */
  datatype Tally = Tally(counts: map<nat, nat>, pairs: set<nat>, accounts: set<nat>)

  type Totals = map<(nat, nat), nat>

  /** A pair has qualified exactly when its true total is over the threshold; until then the count is exact. */
  ghost predicate Tracks(t: Tally, total: Totals, stride: nat) {
    && (forall a, b :: 0 <= a < stride && 0 <= b < stride && a != b ==>
          var k := Key(a, b, stride);
          && (k in t.pairs <==> Get(total, (a, b), 0) > PAIR_MIN_PATH_ROWS)
          && (k !in t.pairs ==> Get(t.counts, k, 0) == Get(total, (a, b), 0)))
    && (forall x :: x in t.accounts ==> exists p: (nat, nat) :: InPair(x, p, total, stride))
    && (forall x: nat, p: (nat, nat) :: InPair(x, p, total, stride) ==> x in t.accounts)
  }

  /** `x` is one of the two accounts of the qualified pair `p`. */
  ghost predicate InPair(x: nat, p: (nat, nat), total: Totals, stride: nat) {
    p.0 < stride && p.1 < stride && p.0 != p.1 && (x == p.0 || x == p.1) && Get(total, p, 0) > PAIR_MIN_PATH_ROWS
  }

  function Counted(t: Tally, a: nat, b: nat, w: nat, stride: nat): Tally {
    var k := Key(a, b, stride);
    if k in t.pairs then t
    else
      var count := Get(t.counts, k, 0) + w;
      if count > PAIR_MIN_PATH_ROWS then Tally(Pop(t.counts, k), t.pairs + {k}, t.accounts + {a, b})
      else Tally(t.counts[k := count], t.pairs, t.accounts)
  }

  lemma CountedTracks(t: Tally, total: Totals, a: nat, b: nat, w: nat, stride: nat)
    requires Tracks(t, total, stride) && a < stride && b < stride && a != b
    ensures Tracks(Counted(t, a, b, w, stride), total[(a, b) := Get(total, (a, b), 0) + w], stride)
  {
    hide Key;
    var t2, total2 := Counted(t, a, b, w, stride), total[(a, b) := Get(total, (a, b), 0) + w];
    var k := Key(a, b, stride);
    forall c, d | 0 <= c < stride && 0 <= d < stride && c != d
      ensures var j := Key(c, d, stride);
              && (j in t2.pairs <==> Get(total2, (c, d), 0) > PAIR_MIN_PATH_ROWS)
              && (j !in t2.pairs ==> Get(t2.counts, j, 0) == Get(total2, (c, d), 0))
    {
      if Key(c, d, stride) == k { KeysDiffer(a, b, c, d, stride); }
    }
    forall x | x in t2.accounts ensures exists p: (nat, nat) :: InPair(x, p, total2, stride) {
      if x in t.accounts {
        var p: (nat, nat) :| InPair(x, p, total, stride);
        assert InPair(x, p, total2, stride);
      } else {
        assert InPair(x, (a, b), total2, stride);
      }
    }
    forall x: nat, p: (nat, nat) | InPair(x, p, total2, stride) ensures x in t2.accounts {
      if p != (a, b) || k in t.pairs { assert InPair(x, p, total, stride); }
    }
  }

  /** What one middle adds to a pair. */
  function Product(ins: map<nat, nat>, outs: map<nat, nat>, p: (nat, nat)): nat {
    Get(ins, p.0, 0) * Get(outs, p.1, 0)
  }

  /** All pairs (a, b) through one middle for a given `a`. */
  method CountFrom(t: Tally, a: nat, count: nat, outs: map<nat, nat>, stride: nat, ghost total: Totals)
    returns (t2: Tally, ghost total2: Totals)
    requires Tracks(t, total, stride) && a < stride && forall b :: b in outs ==> b < stride
    ensures Tracks(t2, total2, stride)
    ensures forall p: (nat, nat) :: p.0 != p.1 ==>
              Get(total2, p, 0) == Get(total, p, 0) + if p.0 == a then count * Get(outs, p.1, 0) else 0
  {
    hide Tracks, Key;
    t2, total2 := t, total;
    var left := outs.Keys;
    while left != {}
      invariant left <= outs.Keys && Tracks(t2, total2, stride)
      invariant forall p: (nat, nat) :: p.0 != p.1 ==>
                  Get(total2, p, 0) ==
                  Get(total, p, 0) + if p.0 == a && p.1 !in left then count * Get(outs, p.1, 0) else 0
      decreases |left|
    {
      var b :| b in left;
      left := left - {b};
      if a != b {
        CountedTracks(t2, total2, a, b, count * outs[b], stride);
        total2 := total2[(a, b) := Get(total2, (a, b), 0) + count * outs[b]];
        var key := a * stride + b;
        assert key == Key(a, b, stride) by { KeyIs(a, b, stride); }
        if key !in t2.pairs {
          var c := Get(t2.counts, key, 0) + count * outs[b];
          if c > PAIR_MIN_PATH_ROWS {
            t2 := Tally(Pop(t2.counts, key), t2.pairs + {key}, t2.accounts + {a, b});
          } else {
            t2 := Tally(t2.counts[key := c], t2.pairs, t2.accounts);
          }
        }
      }
    }
  }

  lemma KeyIs(a: nat, b: nat, stride: nat)
    ensures Key(a, b, stride) == a * stride + b
  {
  }

  /** All pairs through one middle. */
  method CountMiddle(t: Tally, ins: map<nat, nat>, outs: map<nat, nat>, stride: nat, ghost total: Totals)
    returns (t2: Tally, ghost total2: Totals)
    requires Tracks(t, total, stride) && (forall a :: a in ins ==> a < stride) && forall b :: b in outs ==> b < stride
    ensures Tracks(t2, total2, stride)
    ensures forall p: (nat, nat) :: p.0 != p.1 ==> Get(total2, p, 0) == Get(total, p, 0) + Product(ins, outs, p)
  {
    hide Tracks;
    t2, total2 := t, total;
    var left := ins.Keys;
    while left != {}
      invariant left <= ins.Keys && Tracks(t2, total2, stride)
      invariant forall p: (nat, nat) :: p.0 != p.1 ==>
                  Get(total2, p, 0) == Get(total, p, 0) + if p.0 in left then 0 else Product(ins, outs, p)
      decreases |left|
    {
      var a :| a in left;
      left := left - {a};
      t2, total2 := CountFrom(t2, a, ins[a], outs, stride, total2);
    }
  }

  /** Tables whose ids are all below the stride. */
  ghost predicate Below(t: Table, stride: nat) {
    forall x :: x in t ==> x < stride && forall y :: y in t[x] ==> y < stride
  }

  /** `middles` lists the ids with both incoming and outgoing rows, each once. */
  ghost predicate Middles(incoming: Table, outgoing: Table, middles: seq<nat>) {
    && (forall i, j :: 0 <= i < j < |middles| ==> middles[i] != middles[j])
    && forall m :: m in middles <==> m in incoming && m in outgoing
  }

  lemma TracksNothing(stride: nat)
    ensures Tracks(Tally(map[], {}, {}), map[], stride)
  {
  }

  lemma WeightNothing(incoming: Table, outgoing: Table)
    ensures forall a, b :: Weight(incoming, outgoing, [], a, b) == 0
  {
  }

  lemma WeightSnoc(incoming: Table, outgoing: Table, middles: seq<nat>, m: nat, p: (nat, nat))
    requires m in incoming && m in outgoing
    ensures Weight(incoming, outgoing, middles + [m], p.0, p.1) ==
            Weight(incoming, outgoing, middles, p.0, p.1) + Product(incoming[m], outgoing[m], p)
  {
    assert (middles + [m])[..|middles|] == middles;
  }

  /** All pairs through all middles. */
  method CountPairs(incoming: Table, outgoing: Table, stride: nat)
    returns (t: Tally, ghost total: Totals, ghost middles: seq<nat>)
    requires Below(incoming, stride) && Below(outgoing, stride)
    ensures Tracks(t, total, stride) && Middles(incoming, outgoing, middles)
    ensures forall p: (nat, nat) :: p.0 != p.1 ==> Get(total, p, 0) == Weight(incoming, outgoing, middles, p.0, p.1)
  {
    hide Tracks, Weight, Product;
    t, total, middles := Tally(map[], {}, {}), map[], [];
    TracksNothing(stride);
    WeightNothing(incoming, outgoing);
    var left := incoming.Keys * outgoing.Keys;
    while left != {}
      invariant left <= incoming.Keys * outgoing.Keys && Tracks(t, total, stride)
      invariant forall m :: m in middles <==> m in incoming && m in outgoing && m !in left
      invariant forall i, j :: 0 <= i < j < |middles| ==> middles[i] != middles[j]
      invariant forall p: (nat, nat) :: p.0 != p.1 ==> Get(total, p, 0) == Weight(incoming, outgoing, middles, p.0, p.1)
      decreases |left|
    {
      var m :| m in left;
      left := left - {m};
      t, total := CountMiddle(t, incoming[m], outgoing[m], stride, total);
      forall p: (nat, nat) | p.0 != p.1
        ensures Get(total, p, 0) == Weight(incoming, outgoing, middles + [m], p.0, p.1)
      {
        WeightSnoc(incoming, outgoing, middles, m, p);
      }
      middles := middles + [m];
    }
  }

  // ---------- interning accounts ----------

  ghost predicate Distinct(names: seq<Account>) {
    forall i, j :: 0 <= i < j < |names| ==> names[i] != names[j]
  }

  class Interner {
    var ids: map<Account, nat>
    var names: seq<Account>

    ghost predicate Valid()
      reads this
    {
      && Distinct(names)
      && (forall i :: 0 <= i < |names| ==> names[i] in ids && ids[names[i]] == i)
      && forall a :: a in ids ==> ids[a] < |names| && names[ids[a]] == a
    }

    constructor ()
      ensures Valid() && names == []
    {
      ids, names := map[], [];
    }

    method Intern(key: Account) returns (i: nat)
      requires Valid()
      modifies this
      ensures Valid() && i < |names| && names[i] == key
      ensures names == if key in old(names) then old(names) else old(names) + [key]
    {
      if key in ids {
        return ids[key];
      }
      i := |names|;
      ids, names := ids[key := i], names + [key];
    }
  }

  /** The accounts behind a set of ids. */
  ghost function NamesOf(names: seq<Account>, ids: set<nat>): set<Account> {
    set i | i in ids && i < |names| :: names[i]
  }

  ghost predicate Bounded(ids: set<nat>, n: nat) {
    forall i :: i in ids ==> i < n
  }

  lemma MoreNamesOf(names: seq<Account>, key: Account, ids: set<nat>)
    requires Bounded(ids, |names|)
    ensures NamesOf(names + [key], ids) == NamesOf(names, ids)
  {
    var more := names + [key];
    assert forall i :: i in ids ==> more[i] == names[i];
  }

  lemma {:induction false} NamesSize(names: seq<Account>, ids: set<nat>)
    requires Distinct(names) && Bounded(ids, |names|)
    ensures |NamesOf(names, ids)| == |ids|
  {
    if ids == {} {
      assert NamesOf(names, ids) == {};
    } else {
      var i :| i in ids;
      NamesSize(names, ids - {i});
      assert NamesOf(names, ids) == NamesOf(names, ids - {i}) + {names[i]};
    }
  }

  lemma TargetsSnoc(rows: seq<Row>, r: Row, s: Account)
    ensures Targets(rows + [r], s) == Targets(rows, s) + if r.from == s then {r.to} else {}
  {
    var more := rows + [r];
    assert more[|rows|] == r;
    forall t | t in Targets(rows, s) ensures t in Targets(more, s) {
      var i :| 0 <= i < |rows| && rows[i].from == s && rows[i].to == t;
      assert more[i] == rows[i];
    }
    assert Targets(more, s) <= Targets(rows, s) + if r.from == s then {r.to} else {};
  }

  lemma TargetsOutside(rows: seq<Row>, names: seq<Account>, s: Account)
    requires s !in names && forall i :: 0 <= i < |rows| ==> rows[i].from in names
    ensures Targets(rows, s) == {} && !Qualifies(rows, s)
  {
    assert Targets(rows, s) == {};
  }

  // ---------- the order of the answer ----------

  function Named(names: seq<Account>, key: Account): seq<Account> {
    if key in names then names else names + [key]
  }

  /** Accounts in the order the first pass meets them: sources, and targets of sources that do not qualify yet. */
  ghost function FirstMet(rows: seq<Row>): seq<Account> {
    if rows == [] then []
    else
      var init, r := rows[..|rows| - 1], rows[|rows| - 1];
      var names := Named(FirstMet(init), r.from);
      if Qualifies(init, r.from) then names else Named(names, r.to)
  }

  /** And then the second pass: targets of qualifying sources. */
  ghost function Met(rows: seq<Row>, part: seq<Row>): seq<Account> {
    if part == [] then FirstMet(rows)
    else
      var init, r := part[..|part| - 1], part[|part| - 1];
      var names := Named(Met(rows, init), r.from);
      if Qualifies(rows, r.from) then Named(names, r.to) else names
  }

  /** The first `n` accounts that belong to the answer. */
  ghost function Chosen(rows: seq<Row>, names: seq<Account>, n: nat): seq<Account>
    requires n <= |names|
  {
    if n == 0 then []
    else if InAnswer(rows, names[n - 1]) then Chosen(rows, names, n - 1) + [names[n - 1]]
    else Chosen(rows, names, n - 1)
  }

  lemma FirstMetSnoc(rows: seq<Row>, r: Row)
    ensures var names := Named(FirstMet(rows), r.from);
            FirstMet(rows + [r]) == if Qualifies(rows, r.from) then names else Named(names, r.to)
  {
    assert (rows + [r])[..|rows|] == rows;
  }

  lemma MetSnoc(rows: seq<Row>, part: seq<Row>, r: Row)
    ensures var names := Named(Met(rows, part), r.from);
            Met(rows, part + [r]) == if Qualifies(rows, r.from) then Named(names, r.to) else names
  {
    assert (part + [r])[..|part|] == part;
  }

  // ---------- first pass: which sources qualify ----------

  type TargetIds = map<nat, set<nat>>

  ghost predicate SourceOk(names: seq<Account>, rows: seq<Row>, qualified: set<nat>, targets: TargetIds, x: nat)
    requires x < |names|
  {
    && (x in qualified <==> Qualifies(rows, names[x]))
    && (x !in qualified ==> NamesOf(names, Get(targets, x, {})) == Targets(rows, names[x]))
    && Bounded(Get(targets, x, {}), |names|)
  }

  ghost predicate SourcesOk(names: seq<Account>, rows: seq<Row>, qualified: set<nat>, targets: TargetIds) {
    && (forall i :: 0 <= i < |rows| ==> rows[i].from in names)
    && (forall x :: x in qualified || x in targets ==> x < |names|)
    && forall x :: 0 <= x < |names| ==> SourceOk(names, rows, qualified, targets, x)
  }

  lemma MoreNames(names: seq<Account>, key: Account, rows: seq<Row>, qualified: set<nat>, targets: TargetIds)
    requires SourcesOk(names, rows, qualified, targets) && key !in names
    ensures SourcesOk(names + [key], rows, qualified, targets)
  {
    hide Qualifies, Targets;
    var more := names + [key];
    forall x | 0 <= x < |more| ensures SourceOk(more, rows, qualified, targets, x) {
      if x < |names| {
        assert SourceOk(names, rows, qualified, targets, x);
        MoreNamesOf(names, key, Get(targets, x, {}));
      } else {
        TargetsOutside(rows, names, key);
        assert NamesOf(more, {}) == {};
      }
    }
  }

  /** A further row of a source that already qualifies. */
  lemma SkipRow(names: seq<Account>, rows: seq<Row>, qualified: set<nat>, targets: TargetIds, r: Row, s: nat)
    requires SourcesOk(names, rows, qualified, targets) && Distinct(names)
    requires s < |names| && names[s] == r.from && s in qualified
    ensures SourcesOk(names, rows + [r], qualified, targets)
  {
    hide Targets;
    forall x | 0 <= x < |names| ensures SourceOk(names, rows + [r], qualified, targets, x) {
      assert SourceOk(names, rows, qualified, targets, x);
      TargetsSnoc(rows, r, names[x]);
      Larger(Targets(rows, names[x]), Targets(rows + [r], names[x]));
    }
  }

  lemma Larger<T>(a: set<T>, b: set<T>)
    requires a <= b
    ensures |a| <= |b|
  {
    assert |b - a| == |b| - |a|;
  }

  lemma NamesAdd(names: seq<Account>, ids: set<nat>, t: nat)
    requires Distinct(names) && Bounded(ids, |names|) && t < |names|
    ensures NamesOf(names, ids + {t}) == NamesOf(names, ids) + {names[t]}
    ensures Bounded(ids + {t}, |names|) && |NamesOf(names, ids + {t})| == |ids + {t}|
  {
    NamesSize(names, ids + {t});
  }

  /** The source's own entry after one more row. */
  lemma AddOwn(names: seq<Account>, rows: seq<Row>, qualified: set<nat>, targets: TargetIds, r: Row, s: nat, t: nat)
    requires Distinct(names) && s < |names| && SourceOk(names, rows, qualified, targets, s)
    requires names[s] == r.from && t < |names| && names[t] == r.to && s !in qualified
    ensures var mine := Get(targets, s, {}) + {t};
            && Targets(rows + [r], names[s]) == NamesOf(names, mine) && Bounded(mine, |names|)
            && (Qualifies(rows + [r], names[s]) <==> |mine| > SOURCE_MIN_DISTINCT_TARGETS)
  {
    hide NamesOf, Targets;
    NamesAdd(names, Get(targets, s, {}), t);
    TargetsSnoc(rows, r, names[s]);
  }

  /** A further row of a source that does not qualify yet. */
  lemma AddRow(names: seq<Account>, rows: seq<Row>, qualified: set<nat>, targets: TargetIds, r: Row, s: nat, t: nat)
    requires SourcesOk(names, rows, qualified, targets) && Distinct(names)
    requires s < |names| && names[s] == r.from && t < |names| && names[t] == r.to && s !in qualified
    ensures var mine := Get(targets, s, {}) + {t};
            if |mine| > SOURCE_MIN_DISTINCT_TARGETS
            then SourcesOk(names, rows + [r], qualified + {s}, Pop(targets, s))
            else SourcesOk(names, rows + [r], qualified, targets[s := mine])
  {
    hide Targets, NamesOf, Bounded, Qualifies;
    var mine := Get(targets, s, {}) + {t};
    var full := |mine| > SOURCE_MIN_DISTINCT_TARGETS;
    var q2, t2 := if full then qualified + {s} else qualified, if full then Pop(targets, s) else targets[s := mine];
    assert SourceOk(names, rows, qualified, targets, s);
    AddOwn(names, rows, qualified, targets, r, s, t);
    NoneBounded(|names|);
    forall x | 0 <= x < |names| ensures SourceOk(names, rows + [r], q2, t2, x) {
      assert SourceOk(names, rows, qualified, targets, x);
      if x != s {
        assert names[x] != names[s];
        SameTargets(rows, r, names[x]);
      }
    }
  }

  lemma NoneBounded(n: nat)
    ensures Bounded({}, n)
  {
  }

  lemma SameTargets(rows: seq<Row>, r: Row, s: Account)
    requires r.from != s
    ensures Targets(rows + [r], s) == Targets(rows, s) && (Qualifies(rows + [r], s) <==> Qualifies(rows, s))
  {
    TargetsSnoc(rows, r, s);
    assert Targets(rows, s) + {} == Targets(rows, s);
  }

  lemma KeptSnoc(txs: seq<Transaction>, k: nat)
    requires k < |txs|
    ensures Kept(txs[..k + 1]) == if Keeps(txs[k]) then Kept(txs[..k]) + [RowOf(txs[k])] else Kept(txs[..k])
  {
    assert txs[..k + 1][..k] == txs[..k];
  }

  /** Which interned accounts are sources that qualify; a source already known to qualify is not looked at again. */
  method QualifySources(txs: seq<Transaction>, it: Interner) returns (qualified: set<nat>)
    requires it.Valid() && it.names == []
    modifies it
    ensures it.Valid()
    ensures forall i :: 0 <= i < |Kept(txs)| ==> Kept(txs)[i].from in it.names
    ensures forall x :: 0 <= x < |it.names| ==> (x in qualified <==> Qualifies(Kept(txs), it.names[x]))
    ensures it.names == FirstMet(Kept(txs))
  {
    qualified := {};
    var targets: TargetIds := map[];
    KeptNothing(txs);
    hide SourcesOk, Qualifies, Keeps, RowOf, Kept, FirstMet;
    for k := 0 to |txs|
      invariant it.Valid() && SourcesOk(it.names, Kept(txs[..k]), qualified, targets)
      invariant it.names == FirstMet(Kept(txs[..k]))
    {
      ghost var rows := Kept(txs[..k]);
      KeptSnoc(txs, k);
      if Keeps(txs[k]) {
        qualified, targets := SeeRow(it, RowOf(txs[k]), qualified, targets, rows);
      }
    }
    assert txs[..|txs|] == txs;
    SourcesMeaning(it.names, Kept(txs), qualified, targets);
  }

  lemma KeptNothing(txs: seq<Transaction>)
    ensures SourcesOk([], Kept(txs[..0]), {}, map[]) && FirstMet(Kept(txs[..0])) == []
  {
    assert txs[..0] == [];
  }

  lemma SourcesMeaning(names: seq<Account>, rows: seq<Row>, qualified: set<nat>, targets: TargetIds)
    requires SourcesOk(names, rows, qualified, targets)
    ensures forall i :: 0 <= i < |rows| ==> rows[i].from in names
    ensures forall x :: 0 <= x < |names| ==> (x in qualified <==> Qualifies(rows, names[x]))
  {
    forall x | 0 <= x < |names| ensures x in qualified <==> Qualifies(rows, names[x]) {
      assert SourceOk(names, rows, qualified, targets, x);
    }
  }

  method SeeRow(it: Interner, r: Row, q: set<nat>, ts: TargetIds, ghost rows: seq<Row>)
    returns (qualified: set<nat>, targets: TargetIds)
    requires it.Valid() && SourcesOk(it.names, rows, q, ts) && it.names == FirstMet(rows)
    modifies it
    ensures it.Valid() && SourcesOk(it.names, rows + [r], qualified, targets) && it.names == FirstMet(rows + [r])
  {
    hide SourcesOk, FirstMet, Qualifies;
    FirstMetSnoc(rows, r);
    qualified, targets := q, ts;
    if r.from !in it.names { MoreNames(it.names, r.from, rows, q, ts); }
    var source := it.Intern(r.from);
    SourcesMeaning(it.names, rows, q, ts);
    if source in qualified {
      SkipRow(it.names, rows, q, ts, r, source);
      return;
    }
    if r.to !in it.names { MoreNames(it.names, r.to, rows, q, ts); }
    var target := it.Intern(r.to);
    AddRow(it.names, rows, q, ts, r, source, target);
    var mine := Get(targets, source, {}) + {target};
    if |mine| > SOURCE_MIN_DISTINCT_TARGETS {
      qualified, targets := qualified + {source}, Pop(targets, source);
    } else {
      targets := targets[source := mine];
    }
  }

  // ---------- second pass: rows of qualifying sources ----------

  ghost predicate EntryOk(names: seq<Account>, rows: seq<Row>, part: seq<Row>, incoming: Table, outgoing: Table,
                          x: nat, y: nat)
    requires x < |names| && y < |names|
  {
    && Entry(incoming, x, y) == Links(rows, part, names[y], names[x])
    && Entry(outgoing, x, y) == Links(rows, part, names[x], names[y])
  }

  /** The tables count the rows of `part` whose source qualifies, and both their ends are interned. */
  ghost predicate TablesOk(names: seq<Account>, rows: seq<Row>, part: seq<Row>, incoming: Table, outgoing: Table) {
    && Below(incoming, |names|) && Below(outgoing, |names|)
    && (forall i :: 0 <= i < |part| && Qualifies(rows, part[i].from) ==> part[i].from in names && part[i].to in names)
    && forall x, y :: 0 <= x < |names| && 0 <= y < |names| ==> EntryOk(names, rows, part, incoming, outgoing, x, y)
  }

  lemma {:induction false} LinksOutside(rows: seq<Row>, part: seq<Row>, names: seq<Account>, s: Account, t: Account)
    requires forall i :: 0 <= i < |part| && Qualifies(rows, part[i].from) ==>
               part[i].from in names && part[i].to in names
    requires s !in names || t !in names
    ensures Links(rows, part, s, t) == 0
  {
    if part != [] {
      LinksOutside(rows, part[..|part| - 1], names, s, t);
      assert part[|part| - 1] == Row(s, t) ==> !Qualifies(rows, s);
    }
  }

  lemma TablesMoreNames(names: seq<Account>, key: Account, rows: seq<Row>, part: seq<Row>, incoming: Table,
                        outgoing: Table)
    requires TablesOk(names, rows, part, incoming, outgoing) && key !in names
    ensures TablesOk(names + [key], rows, part, incoming, outgoing)
  {
    hide Qualifies, Links;
    var more := names + [key];
    forall x, y | 0 <= x < |more| && 0 <= y < |more| ensures EntryOk(more, rows, part, incoming, outgoing, x, y) {
      if x < |names| && y < |names| {
        assert EntryOk(names, rows, part, incoming, outgoing, x, y);
      } else {
        LinksOutside(rows, part, names, more[x], more[y]);
        LinksOutside(rows, part, names, more[y], more[x]);
      }
    }
  }

  lemma LinksSnoc(rows: seq<Row>, part: seq<Row>, r: Row, s: Account, t: Account)
    ensures Links(rows, part + [r], s, t) ==
            Links(rows, part, s, t) + if r == Row(s, t) && Qualifies(rows, s) then 1 else 0
  {
    assert (part + [r])[..|part|] == part;
  }

  function Bumped(t: Table, x: nat, y: nat): Table {
    t[x := Get(t, x, map[])[y := Entry(t, x, y) + 1]]
  }

  lemma BumpedEntry(t: Table, x: nat, y: nat, u: nat, v: nat)
    ensures Entry(Bumped(t, x, y), u, v) == Entry(t, u, v) + if (u, v) == (x, y) then 1 else 0
  {
  }

  lemma TablesSkip(names: seq<Account>, rows: seq<Row>, part: seq<Row>, r: Row, incoming: Table, outgoing: Table)
    requires TablesOk(names, rows, part, incoming, outgoing) && !Qualifies(rows, r.from)
    ensures TablesOk(names, rows, part + [r], incoming, outgoing)
  {
    hide Qualifies, Links, Below;
    forall x, y | 0 <= x < |names| && 0 <= y < |names|
      ensures EntryOk(names, rows, part + [r], incoming, outgoing, x, y)
    {
      assert EntryOk(names, rows, part, incoming, outgoing, x, y);
      LinksSnoc(rows, part, r, names[x], names[y]);
      LinksSnoc(rows, part, r, names[y], names[x]);
    }
  }

  lemma BelowBumped(t: Table, x: nat, y: nat, n: nat)
    requires Below(t, n) && x < n && y < n
    ensures Below(Bumped(t, x, y), n)
  {
  }

  lemma TablesAdd(names: seq<Account>, rows: seq<Row>, part: seq<Row>, r: Row, incoming: Table, outgoing: Table,
                  s: nat, t: nat)
    requires TablesOk(names, rows, part, incoming, outgoing) && Distinct(names) && Qualifies(rows, r.from)
    requires s < |names| && names[s] == r.from && t < |names| && names[t] == r.to
    ensures TablesOk(names, rows, part + [r], Bumped(incoming, t, s), Bumped(outgoing, s, t))
  {
    hide Qualifies, Links, Below, Bumped;
    BelowBumped(incoming, t, s, |names|);
    BelowBumped(outgoing, s, t, |names|);
    forall x, y | 0 <= x < |names| && 0 <= y < |names|
      ensures EntryOk(names, rows, part + [r], Bumped(incoming, t, s), Bumped(outgoing, s, t), x, y)
    {
      assert EntryOk(names, rows, part, incoming, outgoing, x, y);
      LinksSnoc(rows, part, r, names[x], names[y]);
      LinksSnoc(rows, part, r, names[y], names[x]);
      BumpedEntry(incoming, t, s, x, y);
      BumpedEntry(outgoing, s, t, x, y);
      assert names[x] == names[s] <==> x == s;
      assert names[y] == names[s] <==> y == s;
      assert names[x] == names[t] <==> x == t;
      assert names[y] == names[t] <==> y == t;
    }
  }

  lemma KnownSource(names: seq<Account>, known: nat, key: Account, source: nat)
    requires Distinct(names) && known <= |names| && key in names[..known] && source < |names| && names[source] == key
    ensures source < known
  {
    var i :| 0 <= i < known && names[..known][i] == key;
    assert names[i] == names[source];
  }

  method CountRow(it: Interner, r: Row, qualified: set<nat>, ins: Table, outs: Table, ghost rows: seq<Row>,
                  ghost part: seq<Row>, ghost known: nat)
    returns (incoming: Table, outgoing: Table)
    requires it.Valid() && TablesOk(it.names, rows, part, ins, outs)
    requires known <= |it.names| && r.from in it.names[..known]
    requires forall x :: 0 <= x < known ==> (x in qualified <==> Qualifies(rows, it.names[x]))
    modifies it
    ensures it.Valid() && TablesOk(it.names, rows, part + [r], incoming, outgoing)
    ensures known <= |it.names| && it.names[..known] == old(it.names[..known])
    ensures old(it.names) == Met(rows, part) ==> it.names == Met(rows, part + [r])
  {
    hide TablesOk, Qualifies, Bumped, Met;
    MetSnoc(rows, part, r);
    incoming, outgoing := ins, outs;
    ghost var names := it.names;
    var source := it.Intern(r.from);
    KnownSource(names, known, r.from, source);
    assert it.names == names;
    if source !in qualified {
      TablesSkip(it.names, rows, part, r, ins, outs);
      return;
    }
    if r.to !in it.names { TablesMoreNames(it.names, r.to, rows, part, ins, outs); }
    var target := it.Intern(r.to);
    assert it.names[..known] == names[..known];
    TablesAdd(it.names, rows, part, r, ins, outs, source, target);
    incoming := Bumped(incoming, target, source);
    outgoing := Bumped(outgoing, source, target);
  }

  /** Every source has a number among the first, and the qualifying ones are marked. */
  ghost predicate Known(first: seq<Account>, rows: seq<Row>, qualified: set<nat>) {
    && (forall i :: 0 <= i < |rows| ==> rows[i].from in first)
    && forall x :: 0 <= x < |first| ==> (x in qualified <==> Qualifies(rows, first[x]))
  }

  lemma KnownRow(first: seq<Account>, rows: seq<Row>, qualified: set<nat>, names: seq<Account>, r: Row)
    requires Known(first, rows, qualified) && |first| <= |names| && names[..|first|] == first && r in rows
    ensures r.from in names[..|first|]
    ensures forall x :: 0 <= x < |first| ==> (x in qualified <==> Qualifies(rows, names[x]))
  {
    hide Qualifies;
    assert forall x :: 0 <= x < |first| ==> names[x] == first[x];
  }

  method CountRows(txs: seq<Transaction>, it: Interner, qualified: set<nat>) returns (incoming: Table, outgoing: Table)
    requires it.Valid() && forall i :: 0 <= i < |Kept(txs)| ==> Kept(txs)[i].from in it.names
    requires forall x :: 0 <= x < |it.names| ==> (x in qualified <==> Qualifies(Kept(txs), it.names[x]))
    modifies it
    ensures it.Valid() && TablesOk(it.names, Kept(txs), Kept(txs), incoming, outgoing)
    ensures old(it.names) == FirstMet(Kept(txs)) ==> it.names == Met(Kept(txs), Kept(txs))
  {
    incoming, outgoing := map[], map[];
    ghost var rows, known, first := Kept(txs), |it.names|, it.names;
    TablesStart(it.names, rows, txs);
    assert it.names[..known] == first && Known(first, rows, qualified);
    assert Met(rows, Kept(txs[..0])) == FirstMet(rows) by { assert txs[..0] == []; }
    hide TablesOk, Qualifies, Keeps, RowOf, Kept, Met, FirstMet, Known;
    for k := 0 to |txs|
      invariant it.Valid() && TablesOk(it.names, rows, Kept(txs[..k]), incoming, outgoing)
      invariant first == FirstMet(rows) ==> it.names == Met(rows, Kept(txs[..k]))
      invariant known <= |it.names| && it.names[..known] == first
    {
      KeptSnoc(txs, k);
      if Keeps(txs[k]) {
        KeptIn(txs, k);
        KnownRow(first, rows, qualified, it.names, RowOf(txs[k]));
        incoming, outgoing := CountRow(it, RowOf(txs[k]), qualified, incoming, outgoing, rows, Kept(txs[..k]), known);
      }
    }
    assert txs[..|txs|] == txs;
  }

  lemma TablesStart(names: seq<Account>, rows: seq<Row>, txs: seq<Transaction>)
    ensures TablesOk(names, rows, Kept(txs[..0]), map[], map[])
  {
    assert txs[..0] == [];
    forall x, y | 0 <= x < |names| && 0 <= y < |names| ensures EntryOk(names, rows, [], map[], map[], x, y) {
    }
  }

  lemma {:induction false} KeptIn(txs: seq<Transaction>, k: nat)
    requires k < |txs| && Keeps(txs[k])
    ensures RowOf(txs[k]) in Kept(txs)
  {
    var n := |txs| - 1;
    if k < n {
      KeptIn(txs[..n], k);
      if Keeps(txs[n]) {
        assert Kept(txs) == Kept(txs[..n]) + [RowOf(txs[n])];
      }
    }
  }

  // ---------- the answer ----------

  /** Names of the middles seen so far. */
  ghost function Via(names: seq<Account>, middles: seq<nat>): set<Account>
    requires forall i :: 0 <= i < |middles| ==> middles[i] < |names|
  {
    set i | 0 <= i < |middles| :: names[middles[i]]
  }

  lemma {:induction false} WeightIsPathsVia(names: seq<Account>, rows: seq<Row>, incoming: Table, outgoing: Table,
                                            middles: seq<nat>, x: nat, y: nat)
    requires TablesOk(names, rows, rows, incoming, outgoing) && Distinct(names) && x < |names| && y < |names|
    requires forall i :: 0 <= i < |middles| ==> middles[i] < |names|
    requires forall i, j :: 0 <= i < j < |middles| ==> middles[i] != middles[j]
    ensures Weight(incoming, outgoing, middles, x, y) == PathsVia(rows, Via(names, middles), |rows|, names[x], names[y])
  {
    hide PathsVia, Links, Below, Qualifies;
    if middles == [] {
      assert Via(names, middles) == {};
      NoVia(rows, |rows|, names[x], names[y]);
    } else {
      var init, m := middles[..|middles| - 1], middles[|middles| - 1];
      WeightIsPathsVia(names, rows, incoming, outgoing, init, x, y);
      assert Via(names, middles) == Via(names, init) + {names[m]};
      assert names[m] !in Via(names, init);
      assert EntryOk(names, rows, rows, incoming, outgoing, m, x);
      assert EntryOk(names, rows, rows, incoming, outgoing, m, y);
      assert rows[..|rows|] == rows;
      PathsThrough(rows, Via(names, init), names[m], |rows|, names[x], names[y]);
    }
  }

  lemma {:induction false} NoVia(rows: seq<Row>, i: nat, a: Account, b: Account)
    requires i <= |rows|
    ensures PathsVia(rows, {}, i, a, b) == 0
  {
    if i > 0 { NoVia(rows, i - 1, a, b); }
  }

  lemma MiddlesBelow(incoming: Table, outgoing: Table, middles: seq<nat>, n: nat)
    requires Middles(incoming, outgoing, middles) && Below(incoming, n)
    ensures forall i :: 0 <= i < |middles| ==> middles[i] < n
  {
    forall i | 0 <= i < |middles| ensures middles[i] < n {
      assert middles[i] in middles;
    }
  }

  /** An account that is no middle lacks incoming or outgoing rows. */
  lemma NoMiddle(names: seq<Account>, rows: seq<Row>, incoming: Table, outgoing: Table, m: nat, x: nat, y: nat)
    requires TablesOk(names, rows, rows, incoming, outgoing) && x < |names| && y < |names| && m < |names|
    requires m !in incoming || m !in outgoing
    ensures Links(rows, rows, names[x], names[m]) == 0 || Links(rows, rows, names[m], names[y]) == 0
  {
    hide Links, Below, Qualifies;
    assert EntryOk(names, rows, rows, incoming, outgoing, m, x);
    assert EntryOk(names, rows, rows, incoming, outgoing, m, y);
  }

  lemma OutsideVia(names: seq<Account>, rows: seq<Row>, incoming: Table, outgoing: Table, middles: seq<nat>,
                   a: Account, x: nat, y: nat)
    requires TablesOk(names, rows, rows, incoming, outgoing) && x < |names| && y < |names|
    requires Middles(incoming, outgoing, middles) && forall i :: 0 <= i < |middles| ==> middles[i] < |names|
    requires a !in Via(names, middles)
    ensures Links(rows, rows, names[x], a) == 0 || Links(rows, rows, a, names[y]) == 0
  {
    hide Links, Below, Qualifies;
    if a in names {
      var m: nat :| m < |names| && names[m] == a;
      assert m !in middles;
      NoMiddle(names, rows, incoming, outgoing, m, x, y);
    } else {
      LinksOutside(rows, rows, names, names[x], a);
    }
  }

  /** The summed products are the numbers of joined row pairs. */
  lemma WeightIsPaths(names: seq<Account>, rows: seq<Row>, incoming: Table, outgoing: Table, middles: seq<nat>,
                      x: nat, y: nat)
    requires TablesOk(names, rows, rows, incoming, outgoing) && Distinct(names) && x < |names| && y < |names|
    requires Middles(incoming, outgoing, middles)
    ensures Weight(incoming, outgoing, middles, x, y) == Paths(rows, |rows|, names[x], names[y])
  {
    TablesBelow(names, rows, incoming, outgoing);
    MiddlesBelow(incoming, outgoing, middles, |names|);
    hide PathsVia, Links, Below, Qualifies, Paths, Weight, TablesOk, Via;
    WeightIsPathsVia(names, rows, incoming, outgoing, middles, x, y);
    forall a | a !in Via(names, middles)
      ensures Links(rows, rows, names[x], a) == 0 || Links(rows, rows, a, names[y]) == 0
    {
      OutsideVia(names, rows, incoming, outgoing, middles, a, x, y);
    }
    PathsNeedMiddle(rows, Via(names, middles), |rows|, names[x], names[y]);
  }

  lemma {:induction false} WeightInside(incoming: Table, outgoing: Table, middles: seq<nat>, x: nat, y: nat, n: nat)
    requires Below(incoming, n) && Below(outgoing, n) && Weight(incoming, outgoing, middles, x, y) > 0
    ensures x < n && y < n
  {
    var init, m := middles[..|middles| - 1], middles[|middles| - 1];
    if Weight(incoming, outgoing, init, x, y) > 0 {
      WeightInside(incoming, outgoing, init, x, y, n);
    } else {
      assert Entry(incoming, m, x) != 0 && Entry(outgoing, m, y) != 0;
    }
  }

  /** Accounts with paths are interned. */
  lemma PathsInside(names: seq<Account>, rows: seq<Row>, incoming: Table, outgoing: Table, a: Account, b: Account)
    requires TablesOk(names, rows, rows, incoming, outgoing) && Paths(rows, |rows|, a, b) > 0
    ensures a in names && b in names
  {
    hide Below, Qualifies, Links, Paths;
    forall m ensures a !in names ==> Links(rows, rows, a, m) == 0
             ensures b !in names ==> Links(rows, rows, m, b) == 0 {
      if a !in names { LinksOutside(rows, rows, names, a, m); }
      if b !in names { LinksOutside(rows, rows, names, m, b); }
    }
    if a !in names || b !in names {
      PathsNeedMiddle(rows, {}, |rows|, a, b);
      NoVia(rows, |rows|, a, b);
    }
  }

  lemma AnswerIsTally(names: seq<Account>, rows: seq<Row>, incoming: Table, outgoing: Table, middles: seq<nat>,
                      t: Tally, total: Totals, x: nat)
    requires TablesOk(names, rows, rows, incoming, outgoing) && Distinct(names) && Middles(incoming, outgoing, middles)
    requires Tracks(t, total, |names| + 1) && x < |names|
    requires forall p: (nat, nat) :: p.0 != p.1 ==> Get(total, p, 0) == Weight(incoming, outgoing, middles, p.0, p.1)
    ensures x in t.accounts <==> InAnswer(rows, names[x])
  {
    hide TablesOk, Middles, Paths, Weight, Key, Qualifies;
    if x in t.accounts {
      var p: (nat, nat) :| InPair(x, p, total, |names| + 1);
      assert Below(incoming, |names|) && Below(outgoing, |names|) by { TablesBelow(names, rows, incoming, outgoing); }
      WeightInside(incoming, outgoing, middles, p.0, p.1, |names|);
      WeightIsPaths(names, rows, incoming, outgoing, middles, p.0, p.1);
      assert PairQualifies(rows, names[p.0], names[p.1]);
    }
    if InAnswer(rows, names[x]) {
      var a, b :| PairQualifies(rows, a, b) && (names[x] == a || names[x] == b);
      PathsInside(names, rows, incoming, outgoing, a, b);
      var i :| 0 <= i < |names| && names[i] == a;
      var j :| 0 <= j < |names| && names[j] == b;
      WeightIsPaths(names, rows, incoming, outgoing, middles, i, j);
      assert InPair(x, (i, j), total, |names| + 1);
    }
  }

  lemma TablesBelow(names: seq<Account>, rows: seq<Row>, incoming: Table, outgoing: Table)
    requires TablesOk(names, rows, rows, incoming, outgoing)
    ensures Below(incoming, |names|) && Below(outgoing, |names|)
    ensures Below(incoming, |names| + 1) && Below(outgoing, |names| + 1)
  {
  }

  lemma AnswerInterned(names: seq<Account>, rows: seq<Row>, incoming: Table, outgoing: Table, x: Account)
    requires TablesOk(names, rows, rows, incoming, outgoing) && InAnswer(rows, x)
    ensures x in names
  {
    hide TablesOk, Paths;
    var a, b :| PairQualifies(rows, a, b) && (x == a || x == b);
    PathsInside(names, rows, incoming, outgoing, a, b);
  }

  /** The chosen accounts are those of the answer, each once. */
  lemma {:induction false} ChosenIs(rows: seq<Row>, names: seq<Account>, n: nat)
    requires n <= |names| && Distinct(names)
    ensures Distinct(Chosen(rows, names, n))
    ensures forall a :: a in Chosen(rows, names, n) <==> a in names[..n] && InAnswer(rows, a)
  {
    hide InAnswer;
    if n > 0 {
      ChosenIs(rows, names, n - 1);
      assert names[..n] == names[..n - 1] + [names[n - 1]];
      assert names[n - 1] !in names[..n - 1];
    }
  }

  /** The pruned computation returns exactly the accounts of the plain join, each once, in the order in which the two
      passes over the file first meet them. */
  method ComputeQ4(txs: seq<Transaction>) returns (answer: seq<Account>)
    ensures forall x :: x in answer <==> InAnswer(Kept(txs), x)
    ensures Distinct(answer)
    ensures var rows := Kept(txs); answer == Chosen(rows, Met(rows, rows), |Met(rows, rows)|)
  {
    hide TablesOk, Middles, Tracks, Qualifies, Kept, InAnswer, Met, FirstMet, Chosen;
    var it := new Interner();
    var qualified := QualifySources(txs, it);
    var incoming, outgoing := CountRows(txs, it, qualified);
    ghost var rows := Kept(txs);
    TablesBelow(it.names, rows, incoming, outgoing);
    var t, total, middles := CountPairs(incoming, outgoing, |it.names| + 1);
    forall x | 0 <= x < |it.names| ensures x in t.accounts <==> InAnswer(rows, it.names[x]) {
      AnswerIsTally(it.names, rows, incoming, outgoing, middles, t, total, x);
    }
    answer := Listed(it, t.accounts, rows);
    ChosenIs(rows, it.names, |it.names|);
    assert it.names[..|it.names|] == it.names;
    forall x | InAnswer(rows, x) ensures x in answer {
      AnswerInterned(it.names, rows, incoming, outgoing, x);
    }
  }

  /** The names of the ids, in id order. */
  method Listed(it: Interner, accounts: set<nat>, ghost rows: seq<Row>) returns (answer: seq<Account>)
    requires it.Valid()
    requires forall x :: 0 <= x < |it.names| ==> (x in accounts <==> InAnswer(rows, it.names[x]))
    ensures answer == Chosen(rows, it.names, |it.names|)
  {
    hide InAnswer;
    answer := [];
    for i := 0 to |it.names|
      invariant answer == Chosen(rows, it.names, i)
    {
      if i in accounts {
        answer := answer + [it.names[i]];
      }
    }
  }
}
