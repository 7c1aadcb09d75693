/** What the filter stages let through, against what the reference computations keep. */
module Pipeline {
  import opened Prelude
  import opened Text
  import opened Filters
  import opened FilterRouting
  import Q2
  import Q4

  ghost predicate Has(routes: seq<(string, string)>, d: string) {
    exists i :: 0 <= i < |routes| && routes[i].0 == d
  }

  /** The transaction is sent to destination `d`. */
  ghost predicate Goes(c: Configuration, q: Queues, tx: Transaction, d: string) {
    Has(Route(c, q, tx), d)
  }

  ghost predicate Within(tx: Transaction, first: string, last: string) {
    AtMost(first, Stripped(tx.date)) && AtMost(Stripped(tx.date), last)
  }

  /** The queue behind Q4 that serves the transaction's source account. */
  function Q4Queue(q: Queues, tx: Transaction): string {
    if q.q4Partitions.None? then q.mapper
    else WorkerQueue(q.q4Prefix, q.partition(BankId(tx.fromBank), Stripped(tx.fromAccount)))
  }

  /** Which transactions each configuration sends where. */
  lemma GoesExactly(c: Configuration, q: Queues, tx: Transaction, d: string)
    ensures c == Q1 ==> (Goes(c, q, tx, d) <==> d == q.gateway && tx.amount < 50.0)
    ensures c == Q5 ==> (Goes(c, q, tx, d) <==> d == q.q5Usd && tx.format in {"Wire", "ACH"})
    ensures c.USD? ==>
              (Goes(c, q, tx, d) <==>
                 && tx.currency == "US Dollar"
                 && ((c.q1 && d == q.filterQ1) || (c.q2 && d == "sum_q2") || (c.date && d == q.filterDate)))
    ensures c.DATE? ==>
              (Goes(c, q, tx, d) <==>
                 || (c.q3 && d == q.sumQ3 && Within(tx, "2022/09/01", "2022/09/06"))
                 || (c.q3 && d == q.q3Candidates && Within(tx, "2022/09/06", "2022/09/15"))
                 || (c.q4 && d == Q4Queue(q, tx) && Within(tx, "2022/09/01", "2022/09/06")))
  {
    hide WorkerQueue, AtMost, Stripped, BankId;
    KeepHas(tx.amount < 50.0, (q.gateway, q.gateway), d);
    KeepHas(tx.format == "Wire" || tx.format == "ACH", (q.q5Usd, q.q5Usd), d);
    if c.USD? {
      ThreeKept(c.q1, (q.filterQ1, q.filterQ1), c.q2, (SUM_Q2_OUTPUT, SUM_Q2_OUTPUT),
                c.date, (q.filterDate, q.filterDate), d);
    }
    if c.DATE? {
      var first, second := Between(tx, "2022/09/01", "2022/09/06"), Between(tx, "2022/09/06", "2022/09/15");
      ThreeKept(c.q3 && first, (q.sumQ3, q.sumQ3), c.q3 && second, (q.q3Candidates, q.q3Candidates),
                c.q4 && first, Q4Route(q, tx), d);
    }
  }

  lemma KeepHas(enabled: bool, item: (string, string), d: string)
    ensures Has(Keep(enabled, item), d) <==> enabled && item.0 == d
  {
    if enabled { assert Keep(enabled, item)[0] == item; }
  }

  lemma PlusHas(a: seq<(string, string)>, b: seq<(string, string)>, d: string)
    ensures Has(a + b, d) <==> Has(a, d) || Has(b, d)
  {
    if Has(a, d) {
      var i :| 0 <= i < |a| && a[i].0 == d;
      assert (a + b)[i].0 == d;
    }
    if Has(b, d) {
      var i :| 0 <= i < |b| && b[i].0 == d;
      assert (a + b)[|a| + i].0 == d;
    }
  }

  lemma ThreeKept(x: bool, a: (string, string), y: bool, b: (string, string), z: bool, c: (string, string), d: string)
    ensures Has(Keep(x, a) + Keep(y, b) + Keep(z, c), d) <==>
            (x && a.0 == d) || (y && b.0 == d) || (z && c.0 == d)
  {
    KeepHas(x, a, d);
    KeepHas(y, b, d);
    KeepHas(z, c, d);
    hide Has, Keep;
    PlusHas(Keep(x, a), Keep(y, b), d);
    PlusHas(Keep(x, a) + Keep(y, b), Keep(z, c), d);
  }

  // ---------- payloads ----------

  /** The transactions with a property, in order. */
  ghost function Where(txs: seq<Transaction>, p: Transaction -> bool): seq<Transaction> {
    if txs == [] then []
    else
      var init, last := Where(txs[..|txs| - 1], p), txs[|txs| - 1];
      if p(last) then init + [last] else init
  }

  ghost function Each<R>(txs: seq<Transaction>, f: Transaction -> R): seq<R> {
    seq(|txs|, i requires 0 <= i < |txs| => f(txs[i]))
  }

  lemma EachSnoc<R>(txs: seq<Transaction>, tx: Transaction, f: Transaction -> R)
    ensures Each(txs + [tx], f) == Each(txs, f) + [f(tx)]
  {
  }

  ghost function Sending(c: Configuration, q: Queues, d: string): Transaction -> bool {
    tx => Goes(c, q, tx, d)
  }

  lemma {:induction false} CopiedOnce(routes: seq<(string, string)>, d: string, payload: Bytes)
    requires forall i, j :: 0 <= i < j < |routes| ==> routes[i].0 != routes[j].0
    ensures Copies(routes, d, payload) == if Has(routes, d) then [payload] else []
  {
    if routes != [] {
      var init, last := routes[..|routes| - 1], routes[|routes| - 1];
      CopiedOnce(init, d, payload);
      assert routes == init + [last];
      PlusHas(init, [last], d);
      assert Has([last], d) <==> last.0 == d by { assert [last][0] == last; }
    }
  }

  lemma RoutesDiffer(c: Configuration, q: Queues, tx: Transaction)
    requires Proper(q)
    ensures var r := Route(c, q, tx); forall i, j :: 0 <= i < j < |r| ==> r[i].0 != r[j].0
  {
    Q4Routed(q, tx);
    hide Between, WorkerQueue, Q4Names, Q4Route;
  }

  /** A destination gets each transaction it is due once, serialized, in order. */
  lemma {:induction false} RoutedIsDue(c: Configuration, q: Queues, serialize: Transaction -> Bytes,
                                       txs: seq<Transaction>, d: string)
    requires Proper(q)
    ensures RoutedTo(RoutingOf(c, q, serialize), txs, d) == Each(Where(txs, Sending(c, q, d)), serialize)
  {
    if txs != [] {
      var tx := txs[|txs| - 1];
      RoutedIsDue(c, q, serialize, txs[..|txs| - 1], d);
      RoutesDiffer(c, q, tx);
      hide Route, Proper;
      CopiedOnce(Route(c, q, tx), d, serialize(tx));
    }
  }

  // ---------- against the reference computations ----------

  /** Two selections of a list, the first within the second, give the same rows only if they select the same. */
  lemma {:induction false} SameRows<R>(txs: seq<Transaction>, p: Transaction -> bool, k: Transaction -> bool,
                                       row: Transaction -> R)
    requires forall tx :: p(tx) ==> k(tx)
    ensures |Where(txs, p)| <= |Where(txs, k)|
    ensures Each(Where(txs, p), row) == Each(Where(txs, k), row) <==>
            forall i :: 0 <= i < |txs| && k(txs[i]) ==> p(txs[i])
  {
    if txs != [] {
      var init, last := txs[..|txs| - 1], txs[|txs| - 1];
      SameRows(init, p, k, row);
      assert forall i :: 0 <= i < |txs| ==> txs[i] == if i < |init| then init[i] else last;
      var a, b := Where(init, p), Where(init, k);
      if p(last) {
        EachSnoc(a, last, row);
        EachSnoc(b, last, row);
        assert (Each(a, row) + [row(last)])[..|a|] == Each(a, row);
        assert (Each(b, row) + [row(last)])[..|b|] == Each(b, row);
      } else if k(last) {
        assert |Each(Where(txs, p), row)| < |Each(Where(txs, k), row)|;
      }
    }
  }

  lemma {:induction false} WhereTwice(txs: seq<Transaction>, p: Transaction -> bool, k: Transaction -> bool,
                                      both: Transaction -> bool)
    requires forall tx :: both(tx) <==> p(tx) && k(tx)
    ensures Where(Where(txs, p), k) == Where(txs, both)
  {
    if txs != [] {
      var init, last := txs[..|txs| - 1], txs[|txs| - 1];
      WhereTwice(init, p, k, both);
      if p(last) { assert (Where(init, p) + [last])[..|Where(init, p)|] == Where(init, p); }
    }
  }

  predicate IsDollar(tx: Transaction) { Stripped(tx.currency) == "US Dollar" }

  ghost predicate PlainDollar(tx: Transaction) { IsDollar(tx) ==> tx.currency == "US Dollar" }

  lemma DollarIsPlain()
    ensures Stripped("US Dollar") == "US Dollar"
  {
  }

  function Q2Row(tx: Transaction): Q2.Row { Q2.Row(tx.fromBank, Stripped(tx.fromAccount), tx.amount, tx.rowNumber) }

  lemma {:induction false} DollarsAre(txs: seq<Transaction>)
    ensures Q2.Dollars(txs) == Each(Where(txs, IsDollar), Q2Row)
  {
    hide Stripped;
    if txs != [] {
      var init, last := txs[..|txs| - 1], txs[|txs| - 1];
      DollarsAre(init);
      EachSnoc(Where(init, IsDollar), last, Q2Row);
    }
  }

  lemma {:induction false} KeptAre(txs: seq<Transaction>)
    ensures Q4.Kept(txs) == Each(Where(txs, Q4.Keeps), Q4.RowOf)
  {
    hide Q4.Keeps, Q4.RowOf;
    if txs != [] {
      KeptAre(txs[..|txs| - 1]);
    }
  }

  /** The rows that reach the Q2 sum workers are those of the reference scan, in order, if and only if no currency is a
      dollar with blanks around it: the reference strips the currency, the filter does not. */
  lemma Q2GetsTheDollars(c: Configuration, q: Queues, txs: seq<Transaction>)
    requires c.USD? && c.q2
    ensures Each(Where(txs, Sending(c, q, "sum_q2")), Q2Row) == Q2.Dollars(txs) <==>
            forall i :: 0 <= i < |txs| ==> PlainDollar(txs[i])
  {
    DollarIsPlain();
    DollarsAre(txs);
    hide Stripped, Route, Q2.Dollars;
    var p := Sending(c, q, "sum_q2");
    forall tx ensures p(tx) <==> tx.currency == "US Dollar" {
      GoesExactly(c, q, tx, "sum_q2");
    }
    SameRows(txs, p, IsDollar, Q2Row);
  }

  /** So, with such currencies, the three stages of Q2 behind the filter find what the reference scan of the file finds,
      however the rows are spread over workers and whatever order they arrive in. */
  lemma Q2EndToEnd(c: Configuration, q: Queues, txs: seq<Transaction>, sums: seq<seq<Q2.Row>>,
                   aggregators: seq<seq<Q2.Row>>, joiner: seq<Q2.Row>)
    requires c.USD? && c.q2 && (forall i :: 0 <= i < |txs| ==> PlainDollar(txs[i])) && Q2.Ascending(Q2.Dollars(txs))
    requires Q2.HandsOut(sums, Q2.AsSet(Each(Where(txs, Sending(c, q, "sum_q2")), Q2Row)))
    requires Q2.HandsOut(aggregators, Q2.Sent(sums)) && Q2.HandsOut([joiner], Q2.Sent(aggregators))
    ensures Q2.Reduced(joiner) == Q2.Scanned(Q2.Dollars(txs))
  {
    Q2GetsTheDollars(c, q, txs);
    Q2.TreeEqualsScan(Q2.Dollars(txs), sums, aggregators, joiner);
  }

  /** What passes the dollar filter towards the date filter and then the date filter towards Q4. */
  ghost function ReachingQ4(usd: Configuration, date: Configuration, q: Queues, txs: seq<Transaction>): seq<Transaction>
  {
    Where(Where(txs, Sending(usd, q, q.filterDate)), tx => Goes(date, q, tx, Q4Queue(q, tx)))
  }

  lemma GoesToQ4(usd: Configuration, date: Configuration, q: Queues, tx: Transaction)
    requires Proper(q) && usd.USD? && usd.date && date.DATE? && date.q4
    ensures Goes(usd, q, tx, q.filterDate) && Goes(date, q, tx, Q4Queue(q, tx)) <==>
            Q4.Keeps(tx) && tx.currency == "US Dollar"
  {
    DollarIsPlain();
    Q4Routed(q, tx);
    GoesExactly(usd, q, tx, q.filterDate);
    GoesExactly(date, q, tx, Q4Queue(q, tx));
    hide Stripped, AtMost, Route, WorkerQueue, Q4Names, BankId;
  }

  /** The rows that reach Q4 through both filters are those the reference keeps, in order, if and only if no kept
      transaction has blanks around its currency. */
  lemma Q4GetsTheKept(usd: Configuration, date: Configuration, q: Queues, txs: seq<Transaction>)
    requires Proper(q) && usd.USD? && usd.date && date.DATE? && date.q4
    ensures Each(ReachingQ4(usd, date, q, txs), Q4.RowOf) == Q4.Kept(txs) <==>
            forall i :: 0 <= i < |txs| && Q4.Keeps(txs[i]) ==> PlainDollar(txs[i])
  {
    KeptAre(txs);
    hide Stripped, Route, Q4.Kept, Q4Queue, AtMost, Proper, Q4.RowOf;
    var both := (tx: Transaction) => Goes(usd, q, tx, q.filterDate) && Goes(date, q, tx, Q4Queue(q, tx));
    forall tx ensures both(tx) <==> Q4.Keeps(tx) && tx.currency == "US Dollar" {
      GoesToQ4(usd, date, q, tx);
    }
    WhereTwice(txs, Sending(usd, q, q.filterDate), tx => Goes(date, q, tx, Q4Queue(q, tx)), both);
    SameRows(txs, both, Q4.Keeps, Q4.RowOf);
    hide Goes;
  }

  /** All transactions of a source account reach the same Q4 queue. */
  lemma SourcesStayTogether(q: Queues, a: Transaction, b: Transaction)
    requires Q4.RowOf(a).from == Q4.RowOf(b).from
    ensures Q4Queue(q, a) == Q4Queue(q, b)
  {
  }

  /** The gateway gets what Q1 asks for. */
  lemma Q1GetsSmallDollars(usd: Configuration, q: Queues, tx: Transaction)
    requires usd.USD? && usd.q1
    ensures Goes(usd, q, tx, q.filterQ1) && Goes(Q1, q, tx, q.gateway) <==>
            tx.currency == "US Dollar" && tx.amount < 50.0
  {
    GoesExactly(usd, q, tx, q.filterQ1);
    GoesExactly(Q1, q, tx, q.gateway);
  }

  lemma {:induction false} BothAtMost(a: string, b: string)
    requires AtMost(a, b) && AtMost(b, a)
    ensures a == b
    decreases |a|
  {
    if a != [] && b != [] {
      BothAtMost(a[1..], b[1..]);
      assert a == [a[0]] + a[1..] && b == [b[0]] + b[1..];
    }
  }

  /** What the reference takes as a candidate of Q3: in the second window and not already in the first. */
  ghost predicate Candidate(tx: Transaction) {
    Within(tx, "2022/09/06", "2022/09/15") && !Within(tx, "2022/09/01", "2022/09/06")
  }

  /** The windows of Q3 share one timestamp: the filter sends such a transaction to both queues, the reference counts it
      for the average only. Otherwise the two agree. */
  lemma Q3SplitsAtOneTimestamp(c: Configuration, q: Queues, tx: Transaction)
    requires Proper(q) && c.DATE? && c.q3
    ensures Goes(c, q, tx, q.sumQ3) <==> Within(tx, "2022/09/01", "2022/09/06")
    ensures Goes(c, q, tx, q.q3Candidates) <==> Candidate(tx) || Stripped(tx.date) == "2022/09/06"
    ensures Goes(c, q, tx, q.sumQ3) && Goes(c, q, tx, q.q3Candidates) <==> Stripped(tx.date) == "2022/09/06"
  {
    Q4Routed(q, tx);
    GoesExactly(c, q, tx, q.sumQ3);
    GoesExactly(c, q, tx, q.q3Candidates);
    hide Route, WorkerQueue, Q4Names, BankId;
    OneDay();
    hide AtMost;
    var date := Stripped(tx.date);
    if Within(tx, "2022/09/01", "2022/09/06") && Within(tx, "2022/09/06", "2022/09/15") {
      BothAtMost(date, "2022/09/06");
    }
  }

  lemma OneDay()
    ensures AtMost("2022/09/01", "2022/09/06") && AtMost("2022/09/06", "2022/09/06")
    ensures AtMost("2022/09/06", "2022/09/15")
  {
  }
}
