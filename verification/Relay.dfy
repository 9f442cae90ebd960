/** The relay's objects: admission, worker and replay over shared components. */
module RelayObjects {
  import opened Core
  import Store
  import Journal
  import Schedule
  import Queue
  import Breaker
  import opened Transactions
  import opened Replaying

  class Service {
    const store: Store.Memory
    const journal: Journal.Memory
    const queue: Queue.Scheduler
    const deliveryID: string -> string

    constructor (store: Store.Memory, journal: Journal.Memory, queue: Queue.Scheduler, deliveryID: string -> string)
      ensures this.store == store && this.journal == journal && this.queue == queue && this.deliveryID == deliveryID
    {
      this.store, this.journal, this.queue, this.deliveryID := store, journal, queue, deliveryID;
    }

    ghost function View(circuits: Breaker.Circuits): Relay
      reads store, journal, queue
    {
      Relay(store.View(), journal.entries, queue.contents, circuits)
    }

    method Submit(event: Event, now: Time, ghost circuits: Breaker.Circuits, ghost limits: Breaker.Limits)
      returns (delivery: Option<Delivery>, created: bool, err: Option<Error>)
      requires queue.Valid()
      modifies store, journal, queue, queue.items
      ensures queue.Valid() && fresh(queue.items - old(queue.items))
      ensures Admission(View(circuits), delivery, created, err) ==
              Transactions.Submit(old(View(circuits)), Config(queue.capacity, limits), deliveryID, event, now,
                                  old(journal.failNext), false)
    {
      delivery, created, err := None, false, Some(InvalidState);
      if event.Valid() {
        var id := deliveryID(event.key);
        delivery, created := store.Reserve(event, id, now);
        err := None;
        if created {
          err := Admit(event, id, now, circuits, limits);
          if err.Some? {
            delivery, created := None, false;
          }
        }
      }
    }

    /** Journals and queues a fresh reservation, or undoes it. */
    method Admit(event: Event, id: string, now: Time, ghost circuits: Breaker.Circuits, ghost limits: Breaker.Limits)
      returns (err: Option<Error>)
      requires queue.Valid()
      modifies store, journal, queue, queue.items
      ensures queue.Valid() && fresh(queue.items - old(queue.items))
      ensures (View(circuits), err) ==
              Transactions.Admit(old(View(circuits)), Config(queue.capacity, limits), event, id, now,
                                 old(journal.failNext), false)
    {
      var appended := journal.Append(id, event, Pending, now);
      if appended.Err? {
        store.RollbackReservation(event.key, id);
        err := Some(appended.error);
      } else {
        err := queue.Schedule(id, now);
        if err.Some? {
          store.RollbackReservation(event.key, id);
          var _ := journal.Append(id, event, Dead, now);
        }
      }
    }
  }

  class Worker {
    const id: string
    const store: Store.Memory
    const journal: Journal.Memory
    const queue: Queue.Scheduler
    const breakers: Breaker.Breakers
    const ttl: Duration
    const maxAttempts: int

    constructor (id: string, store: Store.Memory, journal: Journal.Memory, queue: Queue.Scheduler,
                 breakers: Breaker.Breakers, ttl: Duration, maxAttempts: int)
      ensures this.id == id && this.store == store && this.journal == journal && this.queue == queue
      ensures this.breakers == breakers && this.ttl == ttl && this.maxAttempts == maxAttempts
    {
      this.id, this.store, this.journal, this.queue := id, store, journal, queue;
      this.breakers, this.ttl, this.maxAttempts := breakers, ttl, maxAttempts;
    }

    ghost function View(): Relay
      reads store, journal, queue, breakers
    {
      Relay(store.View(), journal.entries, queue.contents, breakers.states)
    }

    ghost function Settings(): Config {
      Config(queue.capacity, breakers.limits)
    }

    ghost function Self(): Transactions.Worker {
      Transactions.Worker(id, ttl, maxAttempts)
    }

    /** Drives whichever delivery PopReady returns; `popped` names it. */
    method Step(now: Time, send: Option<string>)
      returns (delivered: bool, err: Option<Error>, ghost popped: Option<string>)
      requires queue.Valid()
      modifies store, journal, queue, queue.items, breakers
      ensures queue.Valid() && fresh(queue.items - old(queue.items))
      ensures popped == old(queue.Head(now))
      ensures match popped
              case None =>
                && View() == old(View()) && !delivered && err.None?
                && forall id | id in old(queue.contents) :: old(queue.contents)[id] > now
              case Some(id) =>
                && Schedule.IsNext(old(queue.contents), now, id)
                && var o := Transactions.Step(old(View()), Settings(), Self(), id, now, send, old(journal.failNext));
                   View() == o.relay && delivered == o.delivered && err == o.err
    {
      delivered, err := false, None;
      var ready := queue.PopReady(now);
      popped := ready;
      if ready.Some? {
        delivered, err := Attempt(ready.value, now, send, false);
      }
    }

    /** Drives one delivery through acquire, breaker and send, whether or not it is due. */
    method StepFor(key: string, now: Time, send: Option<string>) returns (delivered: bool, err: Option<Error>)
      requires queue.Valid()
      modifies store, journal, queue, queue.items, breakers
      ensures queue.Valid() && fresh(queue.items - old(queue.items))
      ensures var o := Transactions.StepFor(old(View()), Settings(), Self(), key, now, send, old(journal.failNext));
              View() == o.relay && delivered == o.delivered && err == o.err
    {
      delivered, err := Attempt(key, now, send, true);
    }

    /** The part Step and StepFor share: acquire, ask the breaker, then send. */
    method Attempt(key: string, now: Time, send: Option<string>, forced: bool)
      returns (delivered: bool, err: Option<Error>)
      requires queue.Valid()
      modifies store, journal, queue, queue.items, breakers
      ensures queue.Valid() && fresh(queue.items - old(queue.items))
      ensures var o := Work(old(View()), Settings(), Self(), key, now, send, old(journal.failNext), forced);
              View() == o.relay && delivered == o.delivered && err == o.err
    {
      delivered := false;
      var acquired := store.Acquire(key, id, now, ttl);
      if acquired.Err? {
        err := Some(acquired.error);
      } else {
        delivered, err := AskAndSend(acquired.value, key, now, send, forced);
      }
    }

    /** The lease is held: ask the breaker, then send. */
    method AskAndSend(delivery: Delivery, key: string, now: Time, send: Option<string>, forced: bool)
      returns (delivered: bool, err: Option<Error>)
      requires queue.Valid()
      modifies store, journal, queue, queue.items, breakers
      ensures queue.Valid() && fresh(queue.items - old(queue.items))
      ensures var o := Asked(old(View()), Settings(), Self(), delivery, key, now, send, old(journal.failNext), forced);
              View() == o.relay && delivered == o.delivered && err == o.err
    {
      var permit := breakers.Allow(delivery.event.endpoint, now);
      if permit == null {
        StepOpen(delivery, key, now);
        delivered, err := false, Some(CircuitOpen);
      } else {
        breakers.Release(permit, send.None?);
        delivered, err := Settle(delivery, key, now, send, forced);
      }
    }

    /** The send is over: complete, give up, back off, or leave the lease standing. */
    method Settle(delivery: Delivery, key: string, now: Time, send: Option<string>, forced: bool)
      returns (delivered: bool, err: Option<Error>)
      requires queue.Valid()
      modifies store, journal, queue, queue.items
      ensures queue.Valid() && fresh(queue.items - old(queue.items))
      ensures var o := Settled(old(View()), Settings(), Self(), delivery, key, now, send, old(journal.failNext),
                               forced);
              View() == o.relay && delivered == o.delivered && err == o.err
    {
      delivered := false;
      if send.None? {
        delivered, err := StepDone(delivery, key, now, forced);
      } else if forced {
        err := Some(SendFailed(send.value));
      } else if delivery.attempt + 1 >= maxAttempts {
        err := StepDead(delivery, key, now, SendFailed(send.value));
      } else {
        err := StepRetry(delivery, key, now, SendFailed(send.value));
      }
    }

    /** The circuit is open: give the lease back and try again in a second. */
    method StepOpen(delivery: Delivery, key: string, now: Time)
      requires queue.Valid()
      modifies store, queue, queue.items
      ensures queue.Valid() && fresh(queue.items - old(queue.items))
      ensures View() == Defer(old(View()), Settings(), Self(), delivery, key, now).relay
    {
      var updated := store.Retry(key, id, delivery.leaseEpoch, now + SECOND, CircuitOpen);
      if updated.Ok? {
        var _ := queue.Schedule(key, updated.value.nextAttempt);
      }
    }

    method StepDone(delivery: Delivery, key: string, now: Time, forced: bool)
      returns (delivered: bool, err: Option<Error>)
      modifies store, journal
      ensures var o := Finish(old(View()), Self(), delivery, key, now, old(journal.failNext), forced);
              View() == o.relay && delivered == o.delivered && err == o.err
    {
      var completed := store.Complete(key, id, delivery.leaseEpoch);
      if completed.Err? {
        delivered, err := false, Some(completed.error);
      } else {
        var appended := journal.Append(key, completed.value.event, Delivered, now);
        delivered := !forced || appended.Ok?;
        err := if appended.Err? then Some(appended.error) else None;
      }
    }

    /** The last failure: dead, unless the journal does not take the Dead entry. */
    method StepDead(delivery: Delivery, key: string, now: Time, cause: Error) returns (err: Option<Error>)
      requires queue.Valid()
      modifies store, journal, queue, queue.items
      ensures queue.Valid() && fresh(queue.items - old(queue.items))
      ensures var o := Bury(old(View()), Settings(), Self(), delivery, key, now, cause, old(journal.failNext));
              View() == o.relay && err == o.err
    {
      var dead := store.Bury(key, id, delivery.leaseEpoch, cause);
      if dead.Err? {
        err := Some(dead.error);
      } else {
        var appended := journal.Append(key, dead.value.event, Dead, now);
        err := None;
        if appended.Err? {
          err := Some(appended.error);
          Resurrect(key, now);
        }
      }
    }

    method Resurrect(key: string, now: Time)
      requires queue.Valid()
      modifies store, queue, queue.items
      ensures queue.Valid() && fresh(queue.items - old(queue.items))
      ensures View() == Transactions.Revive(old(View()), Settings(), key, now)
    {
      var revived := store.ReviveDead(key, now + SECOND);
      if revived.Ok? {
        var _ := queue.Schedule(key, revived.value.nextAttempt);
      }
    }

    /** A failure with attempts left: back off, journal, queue again. */
    method StepRetry(delivery: Delivery, key: string, now: Time, cause: Error) returns (err: Option<Error>)
      requires queue.Valid()
      modifies store, journal, queue, queue.items
      ensures queue.Valid() && fresh(queue.items - old(queue.items))
      ensures var o := Transactions.Retry(old(View()), Settings(), Self(), delivery, key, now, cause,
                                          old(journal.failNext));
              View() == o.relay && err == o.err
    {
      var backoff := BackoffFor(delivery.attempt);
      var updated := store.Retry(key, id, delivery.leaseEpoch, now + backoff, cause);
      if updated.Err? {
        err := Some(updated.error);
      } else {
        var appended := journal.Append(key, updated.value.event, Pending, now);
        if appended.Err? {
          err := Some(appended.error);
        } else {
          err := queue.Schedule(key, updated.value.nextAttempt);
        }
      }
    }
  }

  /** What is left of the journal is the next batch of 100 and what follows it. */
  lemma NextBatch(all: Journal.Log, cursor: nat, q: Schedule.Ready, capacity: int)
    requires cursor <= |all|
    ensures var slice := Journal.Slice(all, cursor, 100);
            var batch := Replayed(q, capacity, slice);
            && |slice| == (if |all| - cursor < 100 then |all| - cursor else 100)
            && Replayed(q, capacity, all[cursor..]) ==
               if batch.err.Some? then batch
               else Later(Replayed(batch.queue, capacity, all[cursor + |slice|..]), |slice|)
  {
    var slice := Journal.Slice(all, cursor, 100);
    assert all[cursor..] == slice + all[cursor + |slice|..];
    ReplayInChunks(q, capacity, slice, all[cursor + |slice|..]);
  }

  class Replay {
    const journal: Journal.Memory
    const queue: Queue.Scheduler
    var cursor: nat

    constructor (journal: Journal.Memory, queue: Queue.Scheduler)
      ensures this.journal == journal && this.queue == queue && cursor == 0
    {
      this.journal, this.queue, cursor := journal, queue, 0;
    }

    ghost predicate Valid()
      reads this, journal, queue, queue.items
    {
      queue.Valid() && cursor <= |journal.entries|
    }

    /** Replays at most `limit` entries from the cursor on. On an error the cursor stays
        before the entry that did not fit. */
    method Run(limit: int) returns (processed: nat, err: Option<Error>)
      requires Valid()
      modifies this, queue, queue.items
      ensures Valid() && fresh(queue.items - old(queue.items))
      ensures cursor == old(cursor) + processed
      ensures Progress(processed, queue.contents, err) ==
              Replayed(old(queue.contents), queue.capacity, Journal.Slice(journal.entries, old(cursor), limit))
    {
      var entries := journal.ReadAfter(cursor, limit);
      processed, err := RunOver(entries);
    }

    /** Schedules the pending entries one by one, moving the cursor past each that was taken. */
    method RunOver(entries: seq<Journal.Entry>) returns (processed: nat, err: Option<Error>)
      requires queue.Valid()
      requires forall k | 0 <= k < |entries| :: entries[k].sequence == cursor + k + 1
      modifies this, queue, queue.items
      ensures queue.Valid() && fresh(queue.items - old(queue.items))
      ensures cursor == old(cursor) + processed && processed <= |entries|
      ensures Progress(processed, queue.contents, err) == Replayed(old(queue.contents), queue.capacity, entries)
    {
      ghost var goal := Replayed(queue.contents, queue.capacity, entries);
      ghost var start := cursor;
      assert entries[0..] == entries;
      processed, err := 0, None;
      while processed < |entries|
        invariant queue.Valid() && fresh(queue.items - old(queue.items))
        invariant processed <= |entries| && cursor == start + processed && err.None?
        invariant goal == Later(Replayed(queue.contents, queue.capacity, entries[processed..]), processed)
      {
        err := ReplayOne(entries, processed);
        if err.Some? {
          return;
        }
        cursor := entries[processed].sequence;
        processed := processed + 1;
      }
      assert entries[processed..] == [];
    }

    method ReplayOne(entries: seq<Journal.Entry>, k: nat) returns (err: Option<Error>)
      requires queue.Valid() && k < |entries|
      modifies queue, queue.items
      ensures queue.Valid() && fresh(queue.items - old(queue.items))
      ensures Replayed(old(queue.contents), queue.capacity, entries[k..]) ==
              if err.Some? then Progress(0, queue.contents, err)
              else Later(Replayed(queue.contents, queue.capacity, entries[k + 1..]), 1)
    {
      assert entries[k..][0] == entries[k] && entries[k..][1..] == entries[k + 1..];
      err := None;
      if entries[k].transition == Pending {
        err := queue.Schedule(entries[k].delivery, entries[k].at);
      }
    }

    /** What replaying the rest of the journal would do from here. */
    ghost function Ahead(): Progress
      requires cursor <= |journal.entries|
      reads this, journal, queue
    {
      Replayed(queue.contents, queue.capacity, journal.entries[cursor..])
    }

    /** One batch of 100 leaves what is still ahead as it was. */
    method RunBatch() returns (batch: nat, err: Option<Error>)
      requires Valid()
      modifies this, queue, queue.items
      ensures Valid() && fresh(queue.items - old(queue.items))
      ensures old(cursor) <= cursor
      ensures err.None? ==> old(Ahead()) == Later(Ahead(), batch) && cursor == old(cursor) + batch
      ensures err.None? ==>
              batch == if |journal.entries| - old(cursor) < 100 then |journal.entries| - old(cursor) else 100
      ensures err.Some? ==> old(Ahead()) == Progress(cursor - old(cursor), queue.contents, err)
      ensures err.Some? ==> cursor - old(cursor) < 100
    {
      NextBatch(journal.entries, cursor, queue.contents, queue.capacity);
      batch, err := Run(100);
    }

    /** Replays to the end of the journal in batches of 100. On an error, `processed`
        leaves out what the failing batch did before it stopped. */
    method RunAll() returns (processed: nat, err: Option<Error>)
      requires Valid()
      modifies this, queue, queue.items
      ensures Valid() && fresh(queue.items - old(queue.items))
      ensures old(cursor) <= cursor
      ensures Progress(cursor - old(cursor), queue.contents, err) == old(Ahead())
      ensures err.None? ==> cursor == |journal.entries| && processed == cursor - old(cursor)
      ensures err.Some? ==> processed % 100 == 0 && processed <= cursor - old(cursor) < processed + 100
    {
      processed, err := 0, None;
      ghost var start, goal, full := cursor, Ahead(), 0;
      while true
        invariant Valid() && fresh(queue.items - old(queue.items))
        invariant cursor == start + processed && (processed == 100 * full || cursor == |journal.entries|)
        invariant goal == Later(Ahead(), processed)
        decreases |journal.entries| - cursor
      {
        var batch;
        batch, err := RunBatch();
        if err.Some? {
          return;
        }
        processed := processed + batch;
        full := full + 1;
        if batch == 0 {
          return;
        }
      }
    }

    method Remaining() returns (n: nat)
      requires Valid()
      ensures n == |journal.entries| - cursor
    {
      var total := journal.Count();
      return if cursor < total then total - cursor else 0;
    }
  }
}
