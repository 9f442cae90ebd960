/** The append-only delivery journal. */
module Journal {
  import opened Core

  datatype Entry = Entry(sequence: nat, delivery: string, event: Event, transition: DeliveryState, at: Time)

  /** Sequence numbers count from one, without gaps. */
  predicate Numbered(entries: seq<Entry>) {
    forall i | 0 <= i < |entries| :: entries[i].sequence == i + 1
  }

  type Log = entries: seq<Entry> | Numbered(entries) witness []

  function Recorded(entries: Log, delivery: string, event: Event, transition: DeliveryState, at: Time): Log {
    entries + [Entry(|entries| + 1, delivery, event, transition, at)]
  }

  function Slice(entries: seq<Entry>, sequence: nat, limit: int): seq<Entry> {
    if limit <= 0 || sequence >= |entries| then []
    else entries[sequence..if sequence + limit > |entries| then |entries| else sequence + limit]
  }

  /** A slice holds exactly the entries numbered after `sequence`, the `limit` lowest of them. */
  lemma SliceHoldsNext(entries: Log, sequence: nat, limit: nat, e: Entry)
    ensures e in Slice(entries, sequence, limit) <==> e in entries && sequence < e.sequence <= sequence + limit
  {
    var slice := Slice(entries, sequence, limit);
    if e in entries && sequence < e.sequence <= sequence + limit {
      assert e == slice[e.sequence - 1 - sequence];
    }
  }

  /** The newest entry about one delivery. */
  function Last(entries: seq<Entry>, id: string): Option<Entry> {
    if entries == [] then None
    else
      var e := entries[|entries| - 1];
      if e.delivery == id then Some(e) else Last(entries[..|entries| - 1], id)
  }

  lemma LastAfterRecord(entries: Log, id: string, event: Event, transition: DeliveryState, at: Time)
    ensures var after := Recorded(entries, id, event, transition, at);
            && Last(after, id) == Some(Entry(|entries| + 1, id, event, transition, at))
            && forall other | other != id :: Last(after, other) == Last(entries, other)
  {
    var after := Recorded(entries, id, event, transition, at);
    assert after[..|after| - 1] == entries;
  }

  class Memory {
    var entries: Log
    var failNext: bool

    constructor ()
      ensures entries == [] && !failNext
    {
      entries, failNext := [], false;
    }

    method RejectNextAppend()
      modifies this
      ensures failNext && entries == old(entries)
    {
      failNext := true;
    }

    method Append(delivery: string, event: Event, transition: DeliveryState, at: Time) returns (r: Result<nat>)
      modifies this
      ensures !failNext
      ensures old(failNext) ==> r == Err(JournalRejected) && entries == old(entries)
      ensures !old(failNext) ==>
              r == Ok(|entries|) && entries == Recorded(old(entries), delivery, event, transition, at)
    {
      if failNext {
        failNext := false;
        return Err(JournalRejected);
      }
      var sequence := |entries| + 1;
      entries := entries + [Entry(sequence, delivery, event, transition, at)];
      return Ok(sequence);
    }

    method ReadAfter(sequence: nat, limit: int) returns (result: seq<Entry>)
      ensures result == Slice(entries, sequence, limit)
    {
      if limit <= 0 || sequence >= |entries| {
        return [];
      }
      var end := sequence + limit;
      if end > |entries| {
        end := |entries|;
      }
      return entries[sequence..end];
    }

    method Count() returns (n: nat)
      ensures n == |entries|
    {
      return |entries|;
    }
  }
}
