/** The largest transaction of each bank: a sequential scan, and the same found by three stages of workers. */
module Q2 {
  import opened Prelude
  import opened Text
  import opened Filters

  datatype Row = Row(bank: string, account: string, amount: real, number: nat)

  function Normal(r: Row): Row { r.(bank := BankId(r.bank)) }

  type Maxima = map<string, Row>

  /** Comparison shared by the sum, aggregator and joiner processors. */
  predicate Better(candidate: Row, current: Option<Row>) {
    match current
    case None => true
    case Some(c) =>
      if candidate.amount != c.amount then candidate.amount > c.amount
      else if candidate.number != 0 && c.number != 0 then candidate.number < c.number
      else false
  }

  function Accepted(best: Maxima, r: Row): Maxima {
    var q := Normal(r);
    if Better(q, if q.bank in best then Some(best[q.bank]) else None) then best[q.bank := q] else best
  }

  /** A processor that has accepted the rows in order. */
  function Reduced(rows: seq<Row>): Maxima {
    if rows == [] then map[] else Accepted(Reduced(rows[..|rows| - 1]), rows[|rows| - 1])
  }

  /** The sequential scan: only a strictly larger amount replaces. */
  function Scanned(rows: seq<Row>): Maxima {
    if rows == [] then map[]
    else ScanStep(Scanned(rows[..|rows| - 1]), Normal(rows[|rows| - 1]))
  }

  class Q2Processor {
    var maxByBank: Maxima

    constructor ()
      ensures maxByBank == Reduced([])
    {
      maxByBank := map[];
    }

    method Accept(r: Row)
      modifies this
      ensures maxByBank == Accepted(old(maxByBank), r)
    {
      var partial := Normal(r);
      var current := if partial.bank in maxByBank then Some(maxByBank[partial.bank]) else None;
      if Better(partial, current) {
        maxByBank := maxByBank[partial.bank := partial];
      }
    }
  }

  /** The dollar rows of a file, in order. */
  function Dollars(txs: seq<Transaction>): seq<Row> {
    if txs == [] then []
    else
      var before, tx := Dollars(txs[..|txs| - 1]), txs[|txs| - 1];
      if Stripped(tx.currency) != "US Dollar" then before
      else before + [Row(tx.fromBank, Stripped(tx.fromAccount), tx.amount, tx.rowNumber)]
  }

  /** The reference scan over the file. */
  method ComputeMaxima(txs: seq<Transaction>) returns (best: Maxima)
    ensures best == Scanned(Dollars(txs))
  {
    hide BankId, Stripped;
    best := map[];
    for i := 0 to |txs|
      invariant best == Scanned(Dollars(txs[..i]))
    {
      var tx := txs[i];
      assert txs[..i + 1][..i] == txs[..i];
      if Stripped(tx.currency) == "US Dollar" {
        var bank, account := BankId(tx.fromBank), Stripped(tx.fromAccount);
        ScannedLast(Dollars(txs[..i]), Row(tx.fromBank, account, tx.amount, tx.rowNumber));
        if bank !in best || tx.amount > best[bank].amount {
          best := best[bank := Row(bank, account, tx.amount, tx.rowNumber)];
        }
      }
    }
    assert txs[..|txs|] == txs;
  }

  lemma ScannedLast(rows: seq<Row>, r: Row)
    ensures Scanned(rows + [r]) == ScanStep(Scanned(rows), Normal(r))
  {
    assert (rows + [r])[..|rows|] == rows;
  }

  ghost function AsSet(rows: seq<Row>): set<Row> { set r | r in rows }

  ghost function RowsOf(rows: seq<Row>): set<Row> { set r | r in rows :: Normal(r) }

  /** Row numbers are positive and identify rows. */
  ghost predicate Keyed(s: set<Row>) {
    && (forall p :: p in s ==> p.number > 0)
    && forall p, q :: p in s && q in s && p.number == q.number ==> p == q
  }

  predicate Beats(p: Row, q: Row) { p.amount > q.amount || (p.amount == q.amount && p.number < q.number) }

  ghost predicate IsBest(s: set<Row>, bank: string, r: Row) {
    r in s && r.bank == bank && forall q :: q in s && q.bank == bank && q != r ==> Beats(r, q)
  }

  /** The maxima of a set of rows, bank by bank. */
  ghost predicate Picks(s: set<Row>, best: Maxima) {
    && (forall b :: b in best ==> IsBest(s, b, best[b]))
    && forall r :: r in s ==> r.bank in best
  }

  lemma OnePick(s: set<Row>, a: Maxima, b: Maxima)
    requires Picks(s, a) && Picks(s, b)
    ensures a == b
  {
    forall k
      ensures k in a <==> k in b
      ensures k in a && k in b ==> a[k] == b[k]
    {
      if k in a { assert IsBest(s, k, a[k]); }
      if k in b { assert IsBest(s, k, b[k]); }
    }
  }

  lemma RowsSnoc(rows: seq<Row>, r: Row)
    ensures RowsOf(rows + [r]) == RowsOf(rows) + {Normal(r)}
  {
    hide Normal;
    var more := rows + [r];
    assert forall x :: x in more <==> x in rows || x == r;
  }

  lemma AcceptPicks(s: set<Row>, best: Maxima, r: Row)
    requires Picks(s, best) && Keyed(s + {Normal(r)})
    ensures Picks(s + {Normal(r)}, Accepted(best, r))
  {
    var q, next := Normal(r), Accepted(best, r);
    forall b | b in next ensures IsBest(s + {q}, b, next[b]) {
      if b in best { assert IsBest(s, b, best[b]); }
    }
  }

  /** A processor holds the maxima of the rows it has accepted, in whatever order they came. */
  lemma {:induction false} ReducedPicks(rows: seq<Row>)
    requires Keyed(RowsOf(rows))
    ensures Picks(RowsOf(rows), Reduced(rows))
  {
    if rows != [] {
      var init, last := rows[..|rows| - 1], rows[|rows| - 1];
      assert rows == init + [last];
      RowsSnoc(init, last);
      ReducedPicks(init);
      AcceptPicks(RowsOf(init), Reduced(init), last);
    }
  }

  /** Rows in file order carry increasing row numbers. */
  ghost predicate Ascending(rows: seq<Row>) {
    && (forall i :: 0 <= i < |rows| ==> rows[i].number > 0)
    && forall i, j :: 0 <= i < j < |rows| ==> rows[i].number < rows[j].number
  }

  lemma AscendingKeyed(rows: seq<Row>)
    requires Ascending(rows)
    ensures Keyed(RowsOf(rows))
  {
    forall p, q | p in RowsOf(rows) && q in RowsOf(rows) && p.number == q.number
      ensures p == q
    {
      var i :| 0 <= i < |rows| && Normal(rows[i]) == p;
      var j :| 0 <= j < |rows| && Normal(rows[j]) == q;
      assert i == j;
    }
  }

  function ScanStep(best: Maxima, q: Row): Maxima {
    if q.bank !in best || q.amount > best[q.bank].amount then best[q.bank := q] else best
  }

  /** The row kept for a bank is one of the bank's rows, and none of them has a larger amount. */
  ghost predicate Largest(rows: seq<Row>, b: string, kept: Row) {
    && (exists i :: 0 <= i < |rows| && BankId(rows[i].bank) == b && kept == rows[i].(bank := b))
    && forall i :: 0 <= i < |rows| && BankId(rows[i].bank) == b ==> rows[i].amount <= kept.amount
  }

  lemma LargestStays(rows: seq<Row>, r: Row, b: string, kept: Row)
    requires Largest(rows, b, kept) && (BankId(r.bank) == b ==> r.amount <= kept.amount)
    ensures Largest(rows + [r], b, kept)
  {
    hide BankId;
    var more := rows + [r];
    assert forall i :: 0 <= i < |rows| ==> more[i] == rows[i];
    var i :| 0 <= i < |rows| && BankId(rows[i].bank) == b && kept == rows[i].(bank := b);
    assert BankId(more[i].bank) == b && kept == more[i].(bank := b);
  }

  lemma LargestTaken(rows: seq<Row>, r: Row)
    requires forall i :: 0 <= i < |rows| && BankId(rows[i].bank) == BankId(r.bank) ==> rows[i].amount <= r.amount
    ensures Largest(rows + [r], BankId(r.bank), r.(bank := BankId(r.bank)))
  {
    hide BankId;
    var more := rows + [r];
    assert forall i :: 0 <= i < |rows| ==> more[i] == rows[i];
    assert more[|rows|] == r;
  }

  /** The scan keeps exactly the banks of the file, under their ids, each with its largest row. */
  lemma {:induction false} ScanIsLargest(rows: seq<Row>, b: string)
    ensures b in Scanned(rows) <==> exists i :: 0 <= i < |rows| && BankId(rows[i].bank) == b
    ensures b in Scanned(rows) ==> Largest(rows, b, Scanned(rows)[b])
  {
    hide BankId, Largest;
    if rows != [] {
      var init, last := rows[..|rows| - 1], rows[|rows| - 1];
      ScanIsLargest(init, b);
      assert rows == init + [last] && forall i :: 0 <= i < |init| ==> rows[i] == init[i];
      var best := Scanned(init);
      if b in best && !(BankId(last.bank) == b && last.amount > best[b].amount) {
        LargestStays(init, last, b, best[b]);
      } else if BankId(last.bank) == b {
        if b in best { LargestBounds(init, b, best[b], last.amount); }
        LargestTaken(init, last);
      }
      assert b in Scanned(rows) <==> b in best || BankId(rows[|rows| - 1].bank) == b;
    }
  }

  lemma LargestBounds(rows: seq<Row>, b: string, kept: Row, amount: real)
    requires Largest(rows, b, kept) && kept.amount <= amount
    ensures forall i :: 0 <= i < |rows| && BankId(rows[i].bank) == b ==> rows[i].amount <= amount
  {
  }

  lemma ScanStepPicks(s: set<Row>, best: Maxima, q: Row)
    requires Picks(s, best) && forall p :: p in s ==> p.number < q.number
    ensures Picks(s + {q}, ScanStep(best, q))
  {
    var next := ScanStep(best, q);
    forall b | b in next ensures IsBest(s + {q}, b, next[b]) {
      if b in best { assert IsBest(s, b, best[b]); }
    }
  }

  /** On a file, the scan finds the maxima. */
  lemma {:induction false} ScannedPicks(rows: seq<Row>)
    requires Ascending(rows)
    ensures Picks(RowsOf(rows), Scanned(rows))
  {
    hide Picks;
    if rows != [] {
      var init, last := rows[..|rows| - 1], rows[|rows| - 1];
      assert rows == init + [last];
      RowsSnoc(init, last);
      ScannedPicks(init);
      forall p | p in RowsOf(init) ensures p.number < last.number {
        var i :| 0 <= i < |init| && Normal(init[i]) == p;
        assert init[i] == rows[i];
      }
      hide BankId;
      ScanStepPicks(RowsOf(init), Scanned(init), Normal(last));
    } else {
      assert RowsOf(rows) == {};
      PicksNothing();
    }
  }

  lemma PicksNothing()
    ensures Picks({}, map[])
  {
  }

  /** Everything a stage of workers receives, and everything it sends on. */
  ghost function Received(inputs: seq<seq<Row>>): set<Row> {
    set i, r | 0 <= i < |inputs| && r in inputs[i] :: Normal(r)
  }

  ghost function Sent(inputs: seq<seq<Row>>): set<Row> {
    set i, b | 0 <= i < |inputs| && b in Reduced(inputs[i]) :: Reduced(inputs[i])[b]
  }

  lemma WorkerPicks(inputs: seq<seq<Row>>, i: nat)
    requires i < |inputs| && Keyed(Received(inputs))
    ensures RowsOf(inputs[i]) <= Received(inputs) && Picks(RowsOf(inputs[i]), Reduced(inputs[i]))
  {
    hide Normal, Reduced;
    forall p | p in RowsOf(inputs[i]) ensures p in Received(inputs) {
      var r :| r in inputs[i] && Normal(r) == p;
    }
    ReducedPicks(inputs[i]);
  }

  /** A stage keeps the maxima: what it sends on is among what it received, and has the same maxima. */
  lemma StageKeepsMaxima(inputs: seq<seq<Row>>, best: Maxima)
    requires Keyed(Received(inputs)) && Picks(Sent(inputs), best)
    ensures Sent(inputs) <= Received(inputs) && Picks(Received(inputs), best)
  {
    hide Reduced, Normal;
    var all, sent := Received(inputs), Sent(inputs);
    forall p | p in sent ensures p in all {
      var i, b :| 0 <= i < |inputs| && b in Reduced(inputs[i]) && p == Reduced(inputs[i])[b];
      WorkerPicks(inputs, i);
      assert IsBest(RowsOf(inputs[i]), b, p);
    }
    forall q | q in all
      ensures q.bank in best && (q != best[q.bank] ==> Beats(best[q.bank], q))
    {
      var i, r :| 0 <= i < |inputs| && r in inputs[i] && q == Normal(r);
      WorkerPicks(inputs, i);
      assert q in RowsOf(inputs[i]);
      var local := Reduced(inputs[i])[q.bank];
      assert IsBest(RowsOf(inputs[i]), q.bank, local);
      assert local in sent;
      assert IsBest(sent, q.bank, best[q.bank]);
    }
    forall b | b in best ensures IsBest(all, b, best[b]) {
      assert IsBest(sent, b, best[b]);
    }
  }

  /** What workers send on is normal already, so receiving it changes nothing. */
  lemma {:induction false} ReducedNormal(rows: seq<Row>, b: string)
    requires b in Reduced(rows)
    ensures Normal(Reduced(rows)[b]) == Reduced(rows)[b]
  {
    var init, last := rows[..|rows| - 1], rows[|rows| - 1];
    BankIdAgain(last.bank);
    if b in Reduced(init) { ReducedNormal(init, b); }
  }

  /** `inputs` hands out exactly the rows `s`, in any way and any order. */
  ghost predicate HandsOut(inputs: seq<seq<Row>>, s: set<Row>) {
    forall r :: r in s <==> exists i :: 0 <= i < |inputs| && r in inputs[i]
  }

  lemma HandedOut(from: seq<seq<Row>>, inputs: seq<seq<Row>>)
    requires HandsOut(inputs, Sent(from))
    ensures Received(inputs) == Sent(from)
  {
    hide Reduced;
    forall i, r | 0 <= i < |inputs| && r in inputs[i] ensures Normal(r) == r && r in Sent(from) {
      assert r in Sent(from);
      var k, b :| 0 <= k < |from| && b in Reduced(from[k]) && r == Reduced(from[k])[b];
      ReducedNormal(from[k], b);
    }
    forall r | r in Sent(from) ensures r in Received(inputs) {
      var i :| 0 <= i < |inputs| && r in inputs[i];
      assert Normal(r) in Received(inputs);
    }
  }

  /** However the rows of a file are spread over sum workers, their partials over aggregators and the aggregators'
      over the joiner, and in whatever order they arrive, the joiner ends with the rows the scan finds. */
  lemma TreeEqualsScan(file: seq<Row>, sums: seq<seq<Row>>, aggregators: seq<seq<Row>>, joiner: seq<Row>)
    requires Ascending(file)
    requires HandsOut(sums, AsSet(file)) && HandsOut(aggregators, Sent(sums)) && HandsOut([joiner], Sent(aggregators))
    ensures Reduced(joiner) == Scanned(file)
  {
    hide Reduced, Scanned;
    AscendingKeyed(file);
    ScannedPicks(file);
    SpreadRows(file, sums);
    HandedOut(sums, aggregators);
    HandedOut(aggregators, [joiner]);
    SentWithin(sums);
    SentWithin(aggregators);
    JoinerRows(joiner);
    ReducedPicks(joiner);
    StageKeepsMaxima(aggregators, Reduced(joiner));
    StageKeepsMaxima(sums, Reduced(joiner));
    OnePick(RowsOf(file), Reduced(joiner), Scanned(file));
  }

  lemma SpreadRows(file: seq<Row>, sums: seq<seq<Row>>)
    requires HandsOut(sums, AsSet(file))
    ensures Received(sums) == RowsOf(file)
  {
    hide Normal;
    forall p | p in RowsOf(file) ensures p in Received(sums) {
      var r :| r in file && Normal(r) == p;
      assert r in AsSet(file);
      var i :| 0 <= i < |sums| && r in sums[i];
    }
    forall p | p in Received(sums) ensures p in RowsOf(file) {
      var i, r :| 0 <= i < |sums| && r in sums[i] && p == Normal(r);
      assert r in AsSet(file);
    }
  }

  /** What is sent on stays keyed. */
  lemma SentWithin(inputs: seq<seq<Row>>)
    requires Keyed(Received(inputs))
    ensures Sent(inputs) <= Received(inputs) && Keyed(Sent(inputs))
  {
    hide Reduced, Normal;
    forall p | p in Sent(inputs) ensures p in Received(inputs) {
      var i, b :| 0 <= i < |inputs| && b in Reduced(inputs[i]) && p == Reduced(inputs[i])[b];
      WorkerPicks(inputs, i);
      assert IsBest(RowsOf(inputs[i]), b, p);
    }
  }

  lemma JoinerRows(joiner: seq<Row>)
    ensures Received([joiner]) == RowsOf(joiner)
  {
    hide Normal;
    forall p | p in RowsOf(joiner) ensures p in Received([joiner]) {
      var r :| r in joiner && Normal(r) == p;
      assert r in [joiner][0];
    }
  }

  // ---------- when the order of arrival matters ----------

  /** The rows of a bank with the largest amount. */
  ghost predicate IsTop(s: set<Row>, bank: string, r: Row) {
    r in s && r.bank == bank && forall q :: q in s && q.bank == bank ==> q.amount <= r.amount
  }

  ghost predicate AllNumbered(s: set<Row>, bank: string) {
    forall r :: IsTop(s, bank, r) ==> r.number > 0
  }

  ghost predicate Least(s: set<Row>, bank: string, r: Row) {
    IsTop(s, bank, r) && forall q :: IsTop(s, bank, q) ==> r.number <= q.number
  }

  /** The rows of largest amount are all equal, or all are numbered and those with the least number are equal. */
  ghost predicate Settled(s: set<Row>, bank: string) {
    || (forall p, q :: IsTop(s, bank, p) && IsTop(s, bank, q) ==> p == q)
    || (AllNumbered(s, bank) && forall p, q :: Least(s, bank, p) && Least(s, bank, q) ==> p == q)
  }

  /** The row a processor holds: one of largest amount, and of least number where all are numbered. */
  ghost predicate Holds(s: set<Row>, best: Maxima, bank: string) {
    && (bank in best <==> exists r :: r in s && r.bank == bank)
    && (bank in best ==> IsTop(s, bank, best[bank]) && (AllNumbered(s, bank) ==> Least(s, bank, best[bank])))
  }

  lemma AcceptHolds(s: set<Row>, best: Maxima, r: Row, bank: string)
    requires Holds(s, best, bank)
    ensures Holds(s + {Normal(r)}, Accepted(best, r), bank)
  {
    hide BankId;
    var q, next := Normal(r), Accepted(best, r);
    var more := s + {q};
    if q.bank == bank && bank in best {
      var cur := best[bank];
      if q.amount == cur.amount {
        assert forall p :: IsTop(more, bank, p) <==> IsTop(s, bank, p) || p == q;
      } else if q.amount < cur.amount {
        assert forall p :: IsTop(more, bank, p) <==> IsTop(s, bank, p);
      } else {
        assert forall p :: IsTop(more, bank, p) <==> p == q;
      }
    } else if q.bank == bank {
      assert forall p :: IsTop(more, bank, p) <==> p == q;
    } else {
      assert forall p :: IsTop(more, bank, p) <==> IsTop(s, bank, p);
    }
  }

  lemma {:induction false} ReducedHolds(rows: seq<Row>, bank: string)
    ensures Holds(RowsOf(rows), Reduced(rows), bank)
  {
    if rows != [] {
      var init, last := rows[..|rows| - 1], rows[|rows| - 1];
      assert rows == init + [last];
      RowsSnoc(init, last);
      ReducedHolds(init, bank);
      hide Holds;
      AcceptHolds(RowsOf(init), Reduced(init), last, bank);
    } else {
      assert RowsOf(rows) == {};
    }
  }

  /** A row that comes first and that no later row of the same amount can push out stays. */
  lemma {:induction false} FirstStays(x: Row, rest: seq<Row>, bank: string)
    requires IsTop(RowsOf([x] + rest), bank, Normal(x))
    requires x.number == 0 || forall q :: IsTop(RowsOf([x] + rest), bank, q) && q.number > 0 ==> x.number <= q.number
    ensures bank in Reduced([x] + rest) && Reduced([x] + rest)[bank] == Normal(x)
  {
    var all, top := [x] + rest, Normal(x);
    if rest == [] {
      assert all == [] + [x] && all[..0] == [];
      assert Reduced(all) == Accepted(Reduced(all[..0]), x);
    } else {
      var init, last := rest[..|rest| - 1], rest[|rest| - 1];
      assert all == ([x] + init) + [last] && all[..|all| - 1] == [x] + init;
      RowsSnoc([x] + init, last);
      assert x in [x] + init;
      hide Reduced, BankId;
      var s := RowsOf([x] + init);
      assert top in s;
      forall q | IsTop(s, bank, q) ensures IsTop(RowsOf(all), bank, q) {
      }
      FirstStays(x, init, bank);
      ReducedLast([x] + init, last);
      assert Normal(last).bank == bank && Normal(last).amount == top.amount ==> IsTop(RowsOf(all), bank, Normal(last));
    }
  }

  lemma ReducedLast(rows: seq<Row>, r: Row)
    ensures Reduced(rows + [r]) == Accepted(Reduced(rows), r)
  {
    assert (rows + [r])[..|rows|] == rows;
  }

  /** Some order of the rows has the given one first. */
  lemma ToFront(rows: seq<Row>, top: Row) returns (x: Row, rest: seq<Row>)
    requires top in RowsOf(rows)
    ensures Normal(x) == top && multiset([x] + rest) == multiset(rows) && RowsOf([x] + rest) == RowsOf(rows)
  {
    x :| x in rows && Normal(x) == top;
    var i :| 0 <= i < |rows| && rows[i] == x;
    rest := rows[..i] + rows[i + 1..];
    assert rows == rows[..i] + [x] + rows[i + 1..];
    SameRows([x] + rest, rows);
  }

  lemma SameRows(a: seq<Row>, b: seq<Row>)
    requires multiset(a) == multiset(b)
    ensures RowsOf(a) == RowsOf(b)
  {
    hide Normal;
    forall r ensures r in a <==> r in b {
      assert r in multiset(a) <==> r in multiset(b);
    }
  }

  /** Among rows of largest amount with a number, one has the least. */
  lemma {:induction false} LeastNumbered(s: set<Row>, some: Row) returns (r: Row)
    requires some in s && some.number > 0
    ensures r in s && r.number > 0 && forall q :: q in s && q.number > 0 ==> r.number <= q.number
    decreases s
  {
    if q :| q in s && 0 < q.number < some.number {
      var rest := s - {some};
      r := LeastNumbered(rest, q);
      assert forall p :: p in s ==> p in rest || p == some;
    } else {
      r := some;
    }
  }

  /** Every order of the rows gives the same maxima. */
  ghost predicate OrderFree(rows: seq<Row>) {
    forall order :: multiset(order) == multiset(rows) ==> Reduced(order) == Reduced(rows)
  }

  lemma SettledAgree(rows: seq<Row>, order: seq<Row>)
    requires multiset(order) == multiset(rows) && forall bank :: Settled(RowsOf(rows), bank)
    ensures Reduced(order) == Reduced(rows)
  {
    hide Reduced;
    SameRows(order, rows);
    var s, a, b := RowsOf(rows), Reduced(order), Reduced(rows);
    forall bank
      ensures bank in a <==> bank in b
      ensures bank in a && bank in b ==> a[bank] == b[bank]
    {
      ReducedHolds(order, bank);
      ReducedHolds(rows, bank);
      assert Settled(s, bank);
    }
  }

  /** Two rows of a bank that each stay when they come first show that the order matters. */
  lemma TwoWinners(rows: seq<Row>, bank: string, p: Row, q: Row)
    requires IsTop(RowsOf(rows), bank, p) && IsTop(RowsOf(rows), bank, q) && p != q
    requires p.number == 0 || forall t :: IsTop(RowsOf(rows), bank, t) && t.number > 0 ==> p.number <= t.number
    requires q.number == 0 || forall t :: IsTop(RowsOf(rows), bank, t) && t.number > 0 ==> q.number <= t.number
    ensures !OrderFree(rows)
  {
    hide Reduced, BankId;
    var x, restX := ToFront(rows, p);
    var y, restY := ToFront(rows, q);
    FirstStays(x, restX, bank);
    FirstStays(y, restY, bank);
    var a, b := [x] + restX, [y] + restY;
    assert multiset(a) == multiset(rows) && multiset(b) == multiset(rows);
    assert Reduced(a)[bank] != Reduced(b)[bank];
  }

  ghost function Tops(s: set<Row>, bank: string): set<Row> { set r | r in s && IsTop(s, bank, r) }

  lemma UnsettledMatters(rows: seq<Row>, bank: string)
    requires !Settled(RowsOf(rows), bank)
    ensures !OrderFree(rows)
  {
    hide OrderFree;
    var s := RowsOf(rows);
    if AllNumbered(s, bank) {
      var p, q :| Least(s, bank, p) && Least(s, bank, q) && p != q;
      TwoWinners(rows, bank, p, q);
    } else {
      var z :| IsTop(s, bank, z) && z.number == 0;
      var p, q :| IsTop(s, bank, p) && IsTop(s, bank, q) && p != q;
      var y := if p == z then q else p;
      if y.number > 0 {
        y := LeastNumbered(Tops(s, bank), y);
      }
      TwoWinners(rows, bank, z, y);
    }
  }

  /** The order in which rows arrive does not matter exactly when, for each bank, its rows of largest amount are all
      equal, or all carry positive numbers and those with the least number are equal. */
  lemma OrderMattersExactlyForUnnumberedTies(rows: seq<Row>)
    ensures OrderFree(rows) <==> forall bank :: Settled(RowsOf(rows), bank)
  {
    hide Reduced, Settled;
    if forall bank :: Settled(RowsOf(rows), bank) {
      forall order | multiset(order) == multiset(rows) ensures Reduced(order) == Reduced(rows) {
        SettledAgree(rows, order);
      }
    } else {
      var bank :| !Settled(RowsOf(rows), bank);
      UnsettledMatters(rows, bank);
    }
  }

  /** Two rows of a bank with equal amounts and no numbers: the one that comes first wins. */
  lemma UnnumberedTie(a: Row, b: Row)
    requires Normal(a) == a && Normal(b) == b && a != b
    requires a.bank == b.bank && a.amount == b.amount && a.number == b.number == 0
    ensures Reduced([a, b])[a.bank := a] == Reduced([a, b]) && Reduced([b, a])[a.bank := b] == Reduced([b, a])
    ensures Reduced([a, b]) != Reduced([b, a])
  {
    PairReduced(a, b);
    PairReduced(b, a);
    assert map[a.bank := a][a.bank] == a && map[a.bank := b][a.bank] == b;
  }

  lemma PairReduced(a: Row, b: Row)
    requires Normal(a) == a && Normal(b) == b && a.bank == b.bank
    ensures Reduced([a, b]) == map[a.bank := if Better(b, Some(a)) then b else a]
  {
    hide Normal;
    assert [a, b][..1] == [a] && [a][..0] == [];
    assert Reduced([a]) == map[a.bank := a];
  }
}
