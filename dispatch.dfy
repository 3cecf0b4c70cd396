/**
  The dispatch lambda (lambdas/queue/queue-index.ts): it scans the
  identifier table, collects the identifiers in a JavaScript `Set` (first
  occurrence order, no repeats), groups them two per message, and sends one
  message batch to the identifier queue, each entry carrying an id made of
  its position and the invocation's clock reading.

  The scan and the send are parameters; the handler returns the calls it
  issued.
 */
module Dispatch {
  import opened Common
  import opened Numbers
  import opened Chunking

  /** Names of the variables the handler needs, in the order it checks them. */
  const QueueVariables: seq<string> := ["IDENTIFIER_TABLE", "IDENTIFIER_QUEUE"]

  /** How many identifiers one queue message carries. */
  const IdentifiersPerMessage: nat := 2

  predicate Distinct<T(==)>(s: seq<T>) {
    forall i, j :: 0 <= i < j < |s| ==> s[i] != s[j]
  }

  // ---------------------------------------------------------------------
  // The identifier set

  /** The elements of `items` in the order a `Set` built by adding them one
      by one iterates them: each at its first occurrence. */
  function Dedup<T(==)>(items: seq<T>): seq<T>
  {
    if |items| == 0 then []
    else
      var init := Dedup(items[..|items| - 1]);
      if items[|items| - 1] in init then init else init + [items[|items| - 1]]
  }

  /** No identifier appears twice, and exactly the scanned identifiers appear. */
  lemma {:induction false} DedupMembers<T>(items: seq<T>)
    ensures Distinct(Dedup(items))
    ensures forall x :: x in Dedup(items) <==> x in items
  {
    if |items| > 0 {
      var init := items[..|items| - 1];
      DedupMembers(init);
      assert items == init + [items[|items| - 1]];
    }
  }

  /** Scanning identifiers that are already distinct keeps them all, in order. */
  lemma {:induction false} DedupOfDistinct<T>(items: seq<T>)
    requires Distinct(items)
    ensures Dedup(items) == items
  {
    if |items| > 0 {
      var init := items[..|items| - 1];
      DedupOfDistinct(init);
      DedupMembers(init);
      assert items[|items| - 1] !in init;
      assert items == init + [items[|items| - 1]];
    }
  }

  /** The `Set` the handler fills from the scan. */
  class IdentifierSet {
    /** The elements in insertion order. */
    var order: seq<string>

    constructor ()
      ensures order == []
    {
      order := [];
    }

    /** `add`: appends an identifier not yet present; a repeated one changes nothing. */
    method Add(identifier: string)
      modifies this
      ensures order == if identifier in old(order) then old(order) else old(order) + [identifier]
      ensures Distinct(old(order)) ==> Distinct(order)
    {
      if identifier !in order {
        order := order + [identifier];
      }
    }
  }

  /** Fills a fresh set with the scanned identifiers, in scan order. */
  method CollectIdentifiers(items: seq<string>) returns (identifiers: seq<string>)
    ensures identifiers == Dedup(items)
    ensures Distinct(identifiers)
    ensures forall x :: x in identifiers <==> x in items
  {
    var identifierSet := new IdentifierSet();
    var i := 0;
    while i < |items|
      invariant 0 <= i <= |items|
      invariant identifierSet.order == Dedup(items[..i])
    {
      assert items[..i + 1][..i] == items[..i];
      identifierSet.Add(items[i]);
      i := i + 1;
    }
    assert items[..i] == items;
    identifiers := identifierSet.order;
    DedupMembers(items);
  }

  // ---------------------------------------------------------------------
  // Message batch entries

  /** The entry id `${message}-${uid}`. */
  function MessageId(message: nat, uid: nat): string {
    NatToString(message) + "-" + NatToString(uid)
  }

  /** Within one invocation, distinct positions give distinct ids. */
  lemma MessageIdInjective(a: nat, b: nat, uid: nat)
    ensures MessageId(a, uid) == MessageId(b, uid) ==> a == b
  {
    if MessageId(a, uid) == MessageId(b, uid) {
      var s := MessageId(a, uid);
      var na, nb := NatToString(a), NatToString(b);
      assert |na| == |nb|;
      assert s[..|na|] == na;
      assert s[..|nb|] == nb;
      NatToStringInjective(a, b);
    }
  }

  /** One entry of the batch: its id and the identifiers its body lists. */
  datatype BatchEntry = BatchEntry(id: string, identifiers: seq<string>)

  /** The batch for identifiers `order`: their pairs, in order, the last one
      possibly single, numbered from 0. */
  function Entries(order: seq<string>, uid: nat): seq<BatchEntry>
  {
    var groups := Chunks(order, IdentifiersPerMessage);
    seq(|groups|, k requires 0 <= k < |groups| => BatchEntry(MessageId(k, uid), groups[k]))
  }

  /** Identifiers filling whole pairs followed by a group of one or two: the
      group becomes the next entry. */
  lemma EntriesAppend(whole: seq<string>, group: seq<string>, uid: nat)
    requires |whole| % IdentifiersPerMessage == 0 && 0 < |group| <= IdentifiersPerMessage
    ensures Entries(whole + group, uid) == Entries(whole, uid) + [BatchEntry(MessageId(|Entries(whole, uid)|, uid), group)]
  {
    ChunksAppend(whole, group, IdentifiersPerMessage);
  }

  /** The `forEach` over the set and the push of the trailing group. */
  method BuildEntries(order: seq<string>, uid: nat) returns (entries: seq<BatchEntry>)
    ensures entries == Entries(order, uid)
  {
    entries := [];
    var currentIdentifiers: seq<string> := [];
    var message: nat := 0;
    var i := 0;
    while i < |order|
      invariant 0 <= i <= |order|
      invariant |currentIdentifiers| < IdentifiersPerMessage && |currentIdentifiers| <= i
      invariant (i - |currentIdentifiers|) % IdentifiersPerMessage == 0
      invariant currentIdentifiers == order[i - |currentIdentifiers|..i]
      invariant entries == Entries(order[..i - |currentIdentifiers|], uid)
      invariant message == |entries|
    {
      var whole := order[..i - |currentIdentifiers|];
      currentIdentifiers := currentIdentifiers + [order[i]];
      if |currentIdentifiers| == IdentifiersPerMessage {
        EntriesAppend(whole, currentIdentifiers, uid);
        assert whole + currentIdentifiers == order[..i + 1];
        entries := entries + [BatchEntry(MessageId(message, uid), currentIdentifiers)];
        message := message + 1;
        currentIdentifiers := [];
      }
      i := i + 1;
    }
    if |currentIdentifiers| > 0 {
      var whole := order[..i - |currentIdentifiers|];
      EntriesAppend(whole, currentIdentifiers, uid);
      assert whole + currentIdentifiers == order;
      entries := entries + [BatchEntry(MessageId(message, uid), currentIdentifiers)];
      message := message + 1;
    } else {
      assert order[..i] == order;
    }
  }

  /** The batch has ⌈N/2⌉ entries of one or two identifiers, all of them
      pairs but possibly the last; read in order they list every identifier
      once, in set order; and their ids are distinct. */
  lemma EntriesShape(order: seq<string>, uid: nat)
    ensures var e := Entries(order, uid);
      && |e| == CeilDiv(|order|, IdentifiersPerMessage)
      && (forall k :: 0 <= k < |e| ==> 0 < |e[k].identifiers| <= IdentifiersPerMessage)
      && (forall k :: 0 <= k < |e| - 1 ==> |e[k].identifiers| == IdentifiersPerMessage)
      && Flatten(seq(|e|, k requires 0 <= k < |e| => e[k].identifiers)) == order
      && (forall j, k :: 0 <= j < k < |e| ==> e[j].id != e[k].id)
  {
    var groups := Chunks(order, IdentifiersPerMessage);
    var e := Entries(order, uid);
    ChunksCount(order, IdentifiersPerMessage);
    ChunksFull(order, IdentifiersPerMessage);
    ChunksFlatten(order, IdentifiersPerMessage);
    assert seq(|e|, k requires 0 <= k < |e| => e[k].identifiers) == groups;
    forall j, k | 0 <= j < k < |e|
      ensures e[j].id != e[k].id
    {
      MessageIdInjective(j, k, uid);
    }
  }

  // ---------------------------------------------------------------------
  // The handler

  datatype QueueError = MissingVariable(name: string) | ScanFailed | SendFailed

  datatype QueueCall = Scan(tableName: string) | SendMessageBatch(queueUrl: string, entries: seq<BatchEntry>)

  /** `handler`: checks both variables in order, scans the identifier table
      (a failed scan rejects the awaited request and ends the invocation),
      and sends the batch built from the distinct identifiers; `uid` is the
      clock reading taken on entry, `scan` answers with the identifiers of
      the table's items, and `send` says whether the batch was accepted. */
  method DispatchIdentifiers(env: Env, uid: nat, scan: string -> Option<seq<string>>,
                             send: (string, seq<BatchEntry>) -> bool)
    returns (outcome: Outcome<QueueError>, calls: seq<QueueCall>)
    ensures FirstMissing(env, QueueVariables).Some? ==>
      && outcome == Fail(MissingVariable(QueueVariables[FirstMissing(env, QueueVariables).value]))
      && calls == []
    ensures FirstMissing(env, QueueVariables).None? && scan(Value(env, "IDENTIFIER_TABLE")).None? ==>
      outcome == Fail(ScanFailed) && calls == [Scan(Value(env, "IDENTIFIER_TABLE"))]
    ensures FirstMissing(env, QueueVariables).None? && scan(Value(env, "IDENTIFIER_TABLE")).Some? ==>
      var queue := Value(env, "IDENTIFIER_QUEUE");
      var entries := Entries(Dedup(scan(Value(env, "IDENTIFIER_TABLE")).value), uid);
      && calls == [Scan(Value(env, "IDENTIFIER_TABLE")), SendMessageBatch(queue, entries)]
      && outcome == (if send(queue, entries) then Pass else Fail(SendFailed))
  {
    var missing := FirstMissing(env, QueueVariables);
    if missing.Some? {
      return Fail(MissingVariable(QueueVariables[missing.value])), [];
    }
    var table := Value(env, "IDENTIFIER_TABLE");
    calls := [Scan(table)];
    var scanned := scan(table);
    if scanned.None? {
      return Fail(ScanFailed), calls;
    }
    var identifiers := CollectIdentifiers(scanned.value);
    var entries := BuildEntries(identifiers, uid);
    var queue := Value(env, "IDENTIFIER_QUEUE");
    calls := calls + [SendMessageBatch(queue, entries)];
    outcome := if send(queue, entries) then Pass else Fail(SendFailed);
  }

  /** Every scanned identifier is sent exactly once, in first-occurrence
      order, at most two per entry. */
  lemma DispatchSendsEachIdentifierOnce(items: seq<string>, uid: nat)
    ensures var e := Entries(Dedup(items), uid);
      var sent := Flatten(seq(|e|, k requires 0 <= k < |e| => e[k].identifiers));
      && Distinct(sent)
      && (forall x :: x in sent <==> x in items)
      && (forall k :: 0 <= k < |e| ==> 0 < |e[k].identifiers| <= IdentifiersPerMessage)
  {
    EntriesShape(Dedup(items), uid);
    DedupMembers(items);
  }
}
