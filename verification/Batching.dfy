/** Worker.StepBatch: one delivery after the other, until one is not delivered. */
module BatchSteps {
  import opened Core
  import Store
  import opened Transactions
  import Relays = RelayObjects

  /** Every one of `ids`, no two alike, is delivered, and the journal gained exactly their Delivered
      entries in that order. */
  ghost predicate Shipped(s: Relay, t: Relay, ids: seq<string>) {
    && |t.journal| == |s.journal| + |ids| && t.journal[..|s.journal|] == s.journal
    && (forall i | 0 <= i < |ids| ::
          && ids[i] !in ids[..i]
          && t.journal[|s.journal| + i].delivery == ids[i] && t.journal[|s.journal| + i].transition == Delivered)
    && (forall id | id in ids :: id in t.store.deliveries && t.store.deliveries[id].state == Delivered)
  }

  /** Nothing in the store changed but the deliveries in `ids`. */
  ghost predicate Untouched(s: Store.State, t: Store.State, ids: seq<string>) {
    s.reserved == t.reserved && forall id | id !in ids :: Lookup(t.deliveries, id) == Lookup(s.deliveries, id)
  }

  predicate Delivers(s: Relay, t: Relay, id: string) {
    && id in s.store.deliveries && !s.store.deliveries[id].Terminal()
    && id in t.store.deliveries && t.store.deliveries[id].state == Delivered
    && |t.journal| == |s.journal| + 1 && t.journal[..|s.journal|] == s.journal
    && t.journal[|s.journal|].delivery == id && t.journal[|s.journal|].transition == Delivered
    && t.queue == s.queue
  }

  /** A StepFor delivers and journals its delivery, or it reports an error and journals nothing; a terminal
      delivery it leaves as it is. */
  lemma StepForDeliversOrFails(s: Relay, c: Config, w: Worker, id: string, now: Time, send: Option<string>,
                               reject: bool)
    ensures var o := StepFor(s, c, w, id, now, send, reject);
            && Untouched(s.store, o.relay.store, [id])
            && (forall k | k != id :: Lookup(o.relay.queue, k) == Lookup(s.queue, k))
            && if o.delivered then o.err.None? && Delivers(s, o.relay, id)
               else
                 && o.err.Some? && o.relay.journal == s.journal
                 && (id in s.store.deliveries && s.store.deliveries[id].Terminal() ==> o.relay == s)
  {
    WorkAmounts(s, c, w, id, now, send, reject, true);
    ForcedFate(s, c, w, id, now, send, reject);
  }

  lemma OneMoreShipped(s: Relay, t: Relay, u: Relay, ids: seq<string>, id: string)
    requires Shipped(s, t, ids) && Delivers(t, u, id) && Untouched(t.store, u.store, [id])
    ensures Shipped(s, u, ids + [id])
  {
    assert u.journal[..|s.journal|] == t.journal[..|s.journal|];
    var all := ids + [id];
    forall i | 0 <= i < |all|
      ensures all[i] !in all[..i]
      ensures u.journal[|s.journal| + i].delivery == all[i] && u.journal[|s.journal| + i].transition == Delivered
    {
      if i < |ids| {
        assert all[..i] == ids[..i];
        assert u.journal[..|t.journal|][|s.journal| + i] == t.journal[|s.journal| + i];
      } else {
        assert all[..i] == ids;
      }
    }
    StillDelivered(t.store, u.store, ids, id);
  }

  lemma StillDelivered(t: Store.State, u: Store.State, ids: seq<string>, id: string)
    requires Untouched(t, u, [id])
    requires id in u.deliveries && u.deliveries[id].state == Delivered
    requires forall k | k in ids :: k in t.deliveries && t.deliveries[k].state == Delivered
    ensures forall k | k in ids :: k in u.deliveries && u.deliveries[k].state == Delivered
  {
    forall k | k in ids ensures k in u.deliveries && u.deliveries[k].state == Delivered {
      if k != id {
        assert Lookup(u.deliveries, k) == Lookup(t.deliveries, k);
      }
    }
  }

  lemma UntouchedNext(s: Store.State, t: Store.State, u: Store.State, ids: seq<string>, id: string)
    requires Untouched(s, t, ids) && Untouched(t, u, [id])
    ensures Untouched(s, u, ids + [id])
  {
    forall k | k !in ids + [id] ensures Lookup(u.deliveries, k) == Lookup(s.deliveries, k) {
      assert k !in ids && k !in [id];
    }
  }

  /** A delivery that was not delivered ends the batch, with the ones before it shipped. */
  lemma FailureKeepsShipped(s: Relay, t: Relay, u: Relay, ids: seq<string>, id: string)
    requires Shipped(s, t, ids) && Untouched(t.store, u.store, [id]) && u.journal == t.journal
    requires id in t.store.deliveries && t.store.deliveries[id].Terminal() ==> u == t
    ensures Shipped(s, u, ids)
  {
    forall k | k in ids ensures k in u.store.deliveries && u.store.deliveries[k].state == Delivered {
      if k != id {
        assert k !in [id];
        assert Lookup(u.store.deliveries, k) == Lookup(t.store.deliveries, k);
      }
    }
  }

  /** The batch so far: all delivered, nothing else touched. */
  ghost predicate SoFar(s: Relay, t: Relay, ids: seq<string>) {
    Shipped(s, t, ids) && Untouched(s.store, t.store, ids) && t.queue == s.queue
  }

  /** The batch stopped at `id`: what came before is shipped, what comes after untouched, and in the queue
      only `id` can have moved. */
  ghost predicate StoppedAt(s: Relay, t: Relay, ids: seq<string>, id: string) {
    && Shipped(s, t, ids) && Untouched(s.store, t.store, ids + [id])
    && forall k | k != id :: Lookup(t.queue, k) == Lookup(s.queue, k)
  }

  lemma BatchGoesOn(s: Relay, t: Relay, ids: seq<string>, c: Config, w: Worker, id: string, now: Time,
                    send: Option<string>, reject: bool)
    requires SoFar(s, t, ids)
    ensures var o := StepFor(t, c, w, id, now, send, reject);
            if o.delivered then o.err.None? && SoFar(s, o.relay, ids + [id])
            else o.err.Some? && StoppedAt(s, o.relay, ids, id)
  {
    var o := StepFor(t, c, w, id, now, send, reject);
    StepForDeliversOrFails(t, c, w, id, now, send, reject);
    UntouchedNext(s.store, t.store, o.relay.store, ids, id);
    if o.delivered {
      OneMoreShipped(s, t, o.relay, ids, id);
    } else {
      FailureKeepsShipped(s, t, o.relay, ids, id);
    }
  }

  /** One delivery of the batch. */
  method ShipNext(w: Relays.Worker, ids: seq<string>, i: nat, now: Time, send: Option<string>, ghost s: Relay)
    returns (delivered: bool, err: Option<Error>)
    requires w.queue.Valid() && i < |ids| && SoFar(s, w.View(), ids[..i])
    modifies w.store, w.journal, w.queue, w.queue.items, w.breakers
    ensures w.queue.Valid() && fresh(w.queue.items - old(w.queue.items))
    ensures delivered == err.None?
    ensures var o := StepFor(old(w.View()), w.Settings(), w.Self(), ids[i], now, send, old(w.journal.failNext));
            w.View() == o.relay && err == o.err
    ensures if delivered then SoFar(s, w.View(), ids[..i + 1]) else StoppedAt(s, w.View(), ids[..i], ids[i])
  {
    BatchGoesOn(s, w.View(), ids[..i], w.Settings(), w.Self(), ids[i], now, send, w.journal.failNext);
    assert ids[..i + 1] == ids[..i] + [ids[i]];
    delivered, err := w.StepFor(ids[i], now, send);
  }

  /** `clock` and `sends` are the worker's clock and the sender's answers, one for each delivery. When a step fails,
      `reached` is the relay it found, and its error is the answer. */
  method StepBatch(w: Relays.Worker, ids: seq<string>, clock: nat -> Time, sends: nat -> Option<string>)
    returns (completed: nat, err: Option<Error>, ghost reached: Relay, ghost reject: bool)
    requires w.queue.Valid()
    modifies w.store, w.journal, w.queue, w.queue.items, w.breakers
    ensures w.queue.Valid() && fresh(w.queue.items - old(w.queue.items))
    ensures err.Some? ==>
              && completed < |ids| && SoFar(old(w.View()), reached, ids[..completed])
              && var o := StepFor(reached, w.Settings(), w.Self(), ids[completed], clock(completed), sends(completed),
                                  reject);
                 w.View() == o.relay && err == o.err
    ensures if err.None? then completed == |ids| && SoFar(old(w.View()), w.View(), ids)
            else completed < |ids| && StoppedAt(old(w.View()), w.View(), ids[..completed], ids[completed])
  {
    completed, err := 0, None;
    ghost var s := w.View();
    reached, reject := s, false;
    for i := 0 to |ids|
      invariant w.queue.Valid() && fresh(w.queue.items - old(w.queue.items))
      invariant completed == i && SoFar(s, w.View(), ids[..i])
    {
      var delivered;
      reached, reject := w.View(), w.journal.failNext;
      delivered, err := ShipNext(w, ids, i, clock(i), sends(i), s);
      if err.Some? {
        return;
      }
      if delivered {
        completed := completed + 1;
      }
    }
    err := None;
    assert ids[..|ids|] == ids;
  }
}
