/** Pending downstream messages, kept per client and input until that input is committed. */
module Outboxes {
  import opened Prelude
  import opened Messages

  /** client -> input id -> stamped outputs. */
  type OutboxView = map<nat, map<string, seq<Entry>>>

  predicate Holds(pending: OutboxView, client: nat, input: string) {
    client in pending && input in pending[client]
  }

  function EntriesFor(pending: OutboxView, client: nat, input: string): seq<Entry> {
    Get(Get(pending, client, map[]), input, [])
  }

  function Added(pending: OutboxView, client: nat, input: string, entries: seq<Entry>): OutboxView {
    pending[client := Get(pending, client, map[])[input := entries]]
  }

  function Removed(pending: OutboxView, client: nat, input: string): OutboxView {
    if client !in pending then pending
    else
      var kept := Pop(pending[client], input);
      if kept == map[] then Pop(pending, client) else pending[client := kept]
  }

  /** (client, input id) pairs with outputs waiting. */
  ghost function Waiting(pending: OutboxView): set<(nat, string)> {
    set c, i | c in pending && i in pending[c] :: (c, i)
  }

  /** The outputs of the listed inputs, one input after the other. */
  function Listed(pending: OutboxView, inputs: seq<(nat, string)>): seq<Entry> {
    if inputs == [] then []
    else
      var last := inputs[|inputs| - 1];
      Listed(pending, inputs[..|inputs| - 1]) + EntriesFor(pending, last.0, last.1)
  }

  ghost predicate Distinct<T>(s: seq<T>) {
    forall i, j :: 0 <= i < j < |s| ==> s[i] != s[j]
  }

  /** `inputs` lists every waiting input exactly once. */
  ghost predicate Enumerates(pending: OutboxView, inputs: seq<(nat, string)>) {
    && Distinct(inputs)
    && forall p :: p in inputs <==> p in Waiting(pending)
  }

  class Outbox {
    var pending: OutboxView

    constructor (saved: OutboxView)
      ensures pending == saved
    {
      pending := saved;
    }

    method Add(client: nat, input: string, entries: seq<Entry>)
      modifies this
      ensures pending == Added(old(pending), client, input, entries)
    {
      if client !in pending {
        pending := pending[client := map[]];
      }
      pending := pending[client := pending[client][input := entries]];
    }

    method EntriesForInput(client: nat, input: string) returns (entries: seq<Entry>)
      ensures entries == EntriesFor(pending, client, input)
    {
      if client in pending && input in pending[client] {
        return pending[client][input];
      }
      return [];
    }

    method RemoveInput(client: nat, input: string)
      modifies this
      ensures pending == Removed(old(pending), client, input)
    {
      if client !in pending {
        return;
      }
      pending := pending[client := pending[client] - {input}];
      if pending[client] == map[] {
        pending := pending - {client};
      }
    }

    /** Every waiting output, input by input; the order of inputs is that of the dictionary. */
    method AllPending() returns (entries: seq<Entry>, ghost inputs: seq<(nat, string)>)
      ensures Enumerates(pending, inputs)
      ensures entries == Listed(pending, inputs)
    {
      entries, inputs := [], [];
      var left := set c, i | c in pending && i in pending[c] :: (c, i);
      while left != {}
        invariant Distinct(inputs)
        invariant forall p :: p in inputs ==> p !in left
        invariant forall p :: p in Waiting(pending) <==> p in inputs || p in left
        invariant entries == Listed(pending, inputs)
        decreases |left|
      {
        var p :| p in left;
        left := left - {p};
        entries := entries + EntriesFor(pending, p.0, p.1);
        assert (inputs + [p])[..|inputs|] == inputs;
        inputs := inputs + [p];
      }
    }
  }

  lemma AddedWaiting(pending: OutboxView, client: nat, input: string, entries: seq<Entry>, c: nat, i: string)
    ensures Holds(Added(pending, client, input, entries), c, i) <==> (c, i) == (client, input) || Holds(pending, c, i)
    ensures EntriesFor(Added(pending, client, input, entries), c, i) ==
            if (c, i) == (client, input) then entries else EntriesFor(pending, c, i)
  {
  }

  lemma RemovedWaiting(pending: OutboxView, client: nat, input: string, c: nat, i: string)
    ensures Holds(Removed(pending, client, input), c, i) <==> (c, i) != (client, input) && Holds(pending, c, i)
    ensures (c, i) != (client, input) ==>
            EntriesFor(Removed(pending, client, input), c, i) == EntriesFor(pending, c, i)
  {
    if client in pending && c == client && i != input && i in pending[c] {
      assert i in Pop(pending[client], input);
    }
  }

  /** Removing an input that has nothing waiting changes nothing. */
  lemma RemovedAbsent(pending: OutboxView, client: nat, input: string)
    requires !Holds(pending, client, input)
    requires forall c :: c in pending ==> pending[c] != map[]
    ensures Removed(pending, client, input) == pending
  {
    if client in pending {
      assert Pop(pending[client], input) == pending[client];
      assert pending[client := pending[client]] == pending;
    }
  }

  /** The listing contains exactly the entries of the listed inputs. */
  lemma {:induction false} ListedContains(pending: OutboxView, inputs: seq<(nat, string)>, e: Entry)
    ensures e in Listed(pending, inputs) <==>
            exists k :: 0 <= k < |inputs| && e in EntriesFor(pending, inputs[k].0, inputs[k].1)
  {
    if inputs != [] {
      var init, last := inputs[..|inputs| - 1], inputs[|inputs| - 1];
      ListedContains(pending, init, e);
      if e in Listed(pending, init) {
        var k :| 0 <= k < |init| && e in EntriesFor(pending, init[k].0, init[k].1);
        assert inputs[k] == init[k];
      }
      if exists k :: 0 <= k < |inputs| && e in EntriesFor(pending, inputs[k].0, inputs[k].1) {
        var k :| 0 <= k < |inputs| && e in EntriesFor(pending, inputs[k].0, inputs[k].1);
        if k < |init| {
          assert init[k] == inputs[k];
        }
      }
    }
  }
}
