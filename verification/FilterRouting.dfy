/** Where each filter configuration sends a transaction, and where it announces the end of stream. */
module FilterRouting {
  import opened Prelude
  import opened Text
  import opened Filters
  import opened FilterTheorems

  datatype Configuration =
    | Q1
    | Q5
    | USD(q1: bool, q2: bool, date: bool)
    | DATE(q3: bool, q4: bool)

  /** Queue names. `q4Partitions` is the number of personal queues behind the sharded Q4 edge, or `None`
      when Q4 goes to the mapper queue; `partition` picks one by hashing bank and account of the source. */
  datatype Queues = Queues(gateway: string, q5Usd: string, filterQ1: string, filterDate: string,
                           sumQ3: string, q3Candidates: string, mapper: string, q4Prefix: string,
                           q4Partitions: Option<nat>, partition: (string, string) -> nat)

  const SUM_Q2_OUTPUT := "sum_q2"
  const Q4_FILTER_OUTPUT := "q4_filter"

  predicate Between(tx: Transaction, from: string, to: string) {
    AtMost(from, Stripped(tx.date)) && AtMost(Stripped(tx.date), to)
  }

  function WorkerQueue(prefix: string, i: nat): string { prefix + "_" + Decimal(i) }

  function WorkerQueues(prefix: string, n: nat): (names: seq<string>)
    ensures |names| == n && forall i :: 0 <= i < n ==> names[i] == WorkerQueue(prefix, i)
  {
    if n == 0 then [] else WorkerQueues(prefix, n - 1) + [WorkerQueue(prefix, n - 1)]
  }

  function Q4Names(q: Queues): seq<string> {
    match q.q4Partitions
    case None => [q.mapper]
    case Some(n) => WorkerQueues(q.q4Prefix, n)
  }

  function PartitionOf(q: Queues, tx: Transaction): nat {
    q.partition(BankId(tx.fromBank), Stripped(tx.fromAccount))
  }

  function Q4Route(q: Queues, tx: Transaction): (string, string) {
    match q.q4Partitions
    case None => (q.mapper, q.mapper)
    case Some(n) => (WorkerQueue(q.q4Prefix, PartitionOf(q, tx)), Q4_FILTER_OUTPUT)
  }

  function Keep<T>(enabled: bool, item: T): seq<T> { if enabled then [item] else [] }

  function Route(c: Configuration, q: Queues, tx: Transaction): seq<(string, string)> {
    match c
    case Q1 => Keep(tx.amount < 50.0, (q.gateway, q.gateway))
    case Q5 => Keep(tx.format == "Wire" || tx.format == "ACH", (q.q5Usd, q.q5Usd))
    case USD(q1, q2, date) =>
      if tx.currency != "US Dollar" then []
      else Keep(q1, (q.filterQ1, q.filterQ1)) + Keep(q2, (SUM_Q2_OUTPUT, SUM_Q2_OUTPUT))
           + Keep(date, (q.filterDate, q.filterDate))
    case DATE(q3, q4) =>
      Keep(q3 && Between(tx, "2022/09/01", "2022/09/06"), (q.sumQ3, q.sumQ3))
      + Keep(q3 && Between(tx, "2022/09/06", "2022/09/15"), (q.q3Candidates, q.q3Candidates))
      + Keep(q4 && Between(tx, "2022/09/01", "2022/09/06"), Q4Route(q, tx))
  }

  /** Destinations of the end-of-stream messages, in order. */
  function EofDests(c: Configuration, q: Queues): seq<string> {
    match c
    case Q1 => [q.gateway]
    case Q5 => [q.q5Usd]
    case USD(q1, q2, date) => Keep(q1, q.filterQ1) + Keep(q2, SUM_Q2_OUTPUT) + Keep(date, q.filterDate)
    case DATE(q3, q4) => (if q3 then [q.sumQ3, q.q3Candidates] else []) + (if q4 then Q4Names(q) else [])
  }

  /** Partitions of the sharded Q4 edge share one total. */
  function LogicalOf(c: Configuration, q: Queues, dest: string): string {
    if c.DATE? && c.q4 && q.q4Partitions.Some? && dest in Q4Names(q) then Q4_FILTER_OUTPUT else dest
  }

  function RoutingOf(c: Configuration, q: Queues, serialize: Transaction -> Bytes): Routing {
    Routing((tx: Transaction) => Route(c, q, tx), serialize, EofDests(c, q), d => LogicalOf(c, q, d))
  }

  /** Queue names that a deployment keeps apart, and a partition function in range. */
  ghost predicate Proper(q: Queues) {
    && q.filterQ1 != SUM_Q2_OUTPUT && q.filterQ1 != q.filterDate && q.filterDate != SUM_Q2_OUTPUT
    && q.sumQ3 != q.q3Candidates && q.sumQ3 !in Q4Names(q) && q.q3Candidates !in Q4Names(q)
    && (q.q4Partitions.Some? ==> forall bank, account :: q.partition(bank, account) < q.q4Partitions.value)
  }

  lemma QueuesDiffer(prefix: string, i: nat, j: nat)
    requires i != j
    ensures WorkerQueue(prefix, i) != WorkerQueue(prefix, j)
  {
    ParseInvertsDecimal(i);
    ParseInvertsDecimal(j);
    var head := prefix + "_";
    assert WorkerQueue(prefix, i)[|head|..] == Decimal(i);
    assert WorkerQueue(prefix, j)[|head|..] == Decimal(j);
  }

  lemma Q4NamesDiffer(q: Queues)
    ensures forall i, j :: 0 <= i < j < |Q4Names(q)| ==> Q4Names(q)[i] != Q4Names(q)[j]
  {
    if q.q4Partitions.Some? {
      forall i, j | 0 <= i < j < q.q4Partitions.value
        ensures Q4Names(q)[i] != Q4Names(q)[j]
      {
        QueuesDiffer(q.q4Prefix, i, j);
      }
    }
  }

  lemma Q4Routed(q: Queues, tx: Transaction)
    requires Proper(q)
    ensures Q4Route(q, tx).0 in Q4Names(q)
  {
    if q.q4Partitions.Some? {
      assert Q4Names(q)[PartitionOf(q, tx)] == Q4Route(q, tx).0;
    }
  }

  lemma RouteAnnounced(c: Configuration, q: Queues, tx: Transaction, p: (string, string))
    requires Proper(q) && p in Route(c, q, tx)
    ensures p.0 in EofDests(c, q) && LogicalOf(c, q, p.0) == p.1
  {
    hide Between, WorkerQueue, Q4Names, Q4Route;
    Q4Routed(q, tx);
    Q4Logical(c, q, tx);
  }

  lemma DestsDiffer(c: Configuration, q: Queues)
    requires Proper(q)
    ensures var d := EofDests(c, q); forall i, j :: 0 <= i < j < |d| ==> d[i] != d[j]
  {
    hide WorkerQueue, Q4Names;
    Q4NamesDiffer(q);
  }

  /** Every route of every configuration leads to a destination that gets an EOF, under the logical output
      whose total that EOF carries. */
  lemma RoutesAreAnnounced(c: Configuration, q: Queues, serialize: Transaction -> Bytes)
    requires Proper(q)
    ensures WellRouted(RoutingOf(c, q, serialize))
  {
    hide Route, EofDests, LogicalOf, Proper;
    var r := RoutingOf(c, q, serialize);
    DestsDiffer(c, q);
    forall tx, p | p in r.route(tx)
      ensures p.0 in r.dests && r.logicalOf(p.0) == p.1
    {
      RouteAnnounced(c, q, tx, p);
    }
  }

  lemma Q4Logical(c: Configuration, q: Queues, tx: Transaction)
    requires Proper(q)
    ensures c.DATE? && c.q4 ==> LogicalOf(c, q, Q4Route(q, tx).0) == Q4Route(q, tx).1
  {
    Q4Routed(q, tx);
  }
}
