/** What replaying a stretch of the journal does to a queue. */
module Replaying {
  import opened Core
  import opened Journal
  import opened Schedule

  /** How far a replay got, the queue it left, and why it stopped early. */
  datatype Progress = Progress(processed: nat, queue: Ready, err: Option<Error>)

  function Later(p: Progress, n: nat): Progress {
    p.(processed := n + p.processed)
  }

  function Replayed(q: Ready, capacity: int, entries: seq<Entry>): (p: Progress)
    ensures p.processed <= |entries|
    ensures p.err.None? <==> p.processed == |entries|
    decreases |entries|
  {
    if entries == [] then Progress(0, q, None)
    else
      var e := entries[0];
      match if e.transition == Pending then Scheduled(q, capacity, e.delivery, e.at) else Ok(q)
      case Err(x) => Progress(0, q, Some(x))
      case Ok(q1) =>
        Later(Replayed(q1, capacity, entries[1..]), 1)
  }

  /** Replaying in two chunks is replaying in one. */
  lemma {:induction false} ReplayInChunks(q: Ready, capacity: int, a: seq<Entry>, b: seq<Entry>)
    ensures var first := Replayed(q, capacity, a);
            var second := Replayed(first.queue, capacity, b);
            Replayed(q, capacity, a + b) ==
            if first.err.Some? then first
            else Later(second, first.processed)
    decreases |a|
  {
    if a == [] {
      assert a + b == b;
    } else {
      assert (a + b)[1..] == a[1..] + b;
      var e := a[0];
      var r := if e.transition == Pending then Scheduled(q, capacity, e.delivery, e.at) else Ok(q);
      if r.Ok? {
        ReplayInChunks(r.value, capacity, a[1..], b);
      }
    }
  }

  /** A replay that stops has consumed exactly the entries before the one that did not fit. */
  lemma {:induction false} ReplayStopsAtFirstMisfit(q: Ready, capacity: int, entries: seq<Entry>)
    ensures var p := Replayed(q, capacity, entries);
            p.err.Some? ==>
              && entries[p.processed].transition == Pending
              && Scheduled(p.queue, capacity, entries[p.processed].delivery, entries[p.processed].at) == Err(QueueFull)
              && p == Replayed(q, capacity, entries[..p.processed]).(err := Some(QueueFull))
    decreases |entries|
  {
    if entries != [] {
      var e := entries[0];
      var r := if e.transition == Pending then Scheduled(q, capacity, e.delivery, e.at) else Ok(q);
      if r.Ok? {
        ReplayStopsAtFirstMisfit(r.value, capacity, entries[1..]);
        var p := Replayed(q, capacity, entries);
        if p.err.Some? {
          assert entries[..p.processed][1..] == entries[1..][..p.processed - 1];
          assert entries[p.processed] == entries[1..][p.processed - 1];
        }
      }
    }
  }

  /** The newest Pending entry about one delivery. */
  function LastPending(entries: seq<Entry>, id: string): Option<Entry> {
    if entries == [] then None
    else
      var e := entries[|entries| - 1];
      if e.delivery == id && e.transition == Pending then Some(e) else LastPending(entries[..|entries| - 1], id)
  }

  function PendingIds(entries: seq<Entry>): set<string> {
    set e | e in entries && e.transition == Pending :: e.delivery
  }

  /** A complete replay writes each delivery's newest Pending entry into the queue. */
  lemma {:induction false} ReplayIsLastWriterWins(q: Ready, capacity: int, entries: seq<Entry>, id: string)
    requires Replayed(q, capacity, entries).err.None?
    ensures Lookup(Replayed(q, capacity, entries).queue, id) ==
            match LastPending(entries, id)
            case Some(e) => Some(e.at)
            case None => Lookup(q, id)
  {
    if entries != [] {
      var front, e := entries[..|entries| - 1], entries[|entries| - 1];
      assert front + [e] == entries;
      ReplayInChunks(q, capacity, front, [e]);
      ReplayIsLastWriterWins(q, capacity, front, id);
      ReplayedOne(Replayed(q, capacity, front).queue, capacity, e, id);
    }
  }

  lemma ReplayedOne(q: Ready, capacity: int, e: Entry, id: string)
    requires Replayed(q, capacity, [e]).err.None?
    ensures Lookup(Replayed(q, capacity, [e]).queue, id) ==
            if e.delivery == id && e.transition == Pending then Some(e.at) else Lookup(q, id)
  {
    assert [e][1..] == [];
  }

  /** With a slot for every delivery it mentions, a replay cannot be stopped by a full queue. */
  lemma {:induction false} ReplayFits(q: Ready, capacity: int, entries: seq<Entry>)
    requires |q.Keys + PendingIds(entries)| <= capacity
    ensures Replayed(q, capacity, entries).err.None?
    decreases |entries|
  {
    if entries != [] {
      var e := entries[0];
      var all := q.Keys + PendingIds(entries);
      if e.transition == Pending {
        assert e.delivery in PendingIds(entries);
        if e.delivery !in q {
          SubsetSize(q.Keys + {e.delivery}, all);
          assert |q.Keys + {e.delivery}| == |q| + 1;
        }
        assert Scheduled(q, capacity, e.delivery, e.at) == Ok(q[e.delivery := e.at]);
        SubsetSize(q[e.delivery := e.at].Keys + PendingIds(entries[1..]), all);
        ReplayFits(q[e.delivery := e.at], capacity, entries[1..]);
      } else {
        SubsetSize(q.Keys + PendingIds(entries[1..]), all);
        ReplayFits(q, capacity, entries[1..]);
      }
    }
  }

  /** When the newest entry is Pending it is the newest Pending entry. */
  lemma {:induction false} LastPendingIsLast(entries: seq<Entry>, id: string)
    requires Last(entries, id).Some? && Last(entries, id).value.transition == Pending
    ensures LastPending(entries, id) == Last(entries, id)
  {
    if entries[|entries| - 1].delivery != id {
      LastPendingIsLast(entries[..|entries| - 1], id);
    }
  }
}
