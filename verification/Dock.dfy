/** The orchestration service: its own Submit, and the overdue sweep. */
module Dock {
  import opened Core
  import Store
  import Journal
  import Schedule
  import Queue
  import Breaker
  import Overdue
  import Batches
  import BatchWindow
  import opened Transactions

  // ---------- Submit ----------

  /** The relay together with the batch window. */
  datatype Docked = Docked(relay: Relay, window: Batches.Items)

  datatype Cause = Relayed(error: Error) | Windowed(refusal: Batches.WindowError)

  datatype Answer = Answer(state: Docked, delivery: Option<Delivery>, err: Option<Cause>)

  /** `head` is what PopReady(now) returns for this queue: a least due id, or none when nothing is due. */
  predicate IsHead(q: Schedule.Ready, now: Time, head: Option<string>) {
    match head
    case None => Schedule.Due(q, now) == {}
    case Some(id) => Schedule.IsNext(q, now, id)
  }

  /** Submit once routing has named the delivery. A rejected journal entry keeps the reservation and pops the
      queue's head; a full window is reported although everything before it was done. */
  function DockSubmit(s: Docked, c: Config, room: int, id: string, event: Event, now: Time, reject: bool,
                      head: Option<string>): Answer {
    if !event.Valid() then Answer(s, None, Some(Relayed(InvalidState)))
    else
      var (store, delivery, created) := Store.Reserved(s.relay.store, event, id, now);
      if !created then Answer(s, delivery, None)
      else Admitted(s.(relay := s.relay.(store := store)), c, room, id, event, now, reject, head, delivery)
  }

  function Admitted(s: Docked, c: Config, room: int, id: string, event: Event, now: Time, reject: bool,
                    head: Option<string>, delivery: Option<Delivery>): Answer {
    if reject then
      Answer(s.(relay := s.relay.(store := Store.Kept(s.relay.store, event.key, id),
                                  queue := Behead(s.relay.queue, head))),
             None, Some(Relayed(JournalRejected)))
    else Enqueued(s.(relay := WithEntry(s.relay, false, id, event, Pending, now)), c, room, id, event, now, delivery)
  }

  /** The entry is written; the queue may still refuse the delivery, and then the window. */
  function Enqueued(s: Docked, c: Config, room: int, id: string, event: Event, now: Time,
                    delivery: Option<Delivery>): Answer {
    match ScheduleError(s.relay, c, id, now)
    case Some(e) =>
      Answer(s.(relay := s.relay.(store := Store.RolledBack(s.relay.store, event.key, id))), None, Some(Relayed(e)))
    case None =>
      var item := Batches.Item(id, event, now);
      Answer(Docked(WithSchedule(s.relay, c, id, now), Batches.Added(s.window, room, item)), delivery,
             match Batches.Refused(s.window, room, item)
             case None => None
             case Some(refusal) => Some(Windowed(refusal)))
  }

  function Behead(q: Schedule.Ready, head: Option<string>): Schedule.Ready {
    if head.Some? then q - {head.value} else q
  }

  /** A new key that the journal, the queue and the window each may refuse. */
  lemma SubmitFailsExactly(s: Docked, c: Config, room: int, id: string, event: Event, now: Time, reject: bool,
                           head: Option<string>)
    requires event.Valid() && event.key !in s.relay.store.reserved
    ensures DockSubmit(s, c, room, id, event, now, reject, head).err.Some? <==>
            reject || NoSlot(s.relay.queue, c, id) ||
              Batches.Refused(s.window, room, Batches.Item(id, event, now)).Some?
  {
  }

  /** All-or-nothing admission fails here: an unsuccessful Submit of a new key restores store and queue exactly
      when it was the queue that refused it. */
  lemma RestoredExactly(s: Docked, c: Config, room: int, id: string, event: Event, now: Time, reject: bool,
                        head: Option<string>)
    requires event.Valid() && event.key !in s.relay.store.reserved && id !in s.relay.store.deliveries
    requires DockSubmit(s, c, room, id, event, now, reject, head).err.Some?
    ensures var t := DockSubmit(s, c, room, id, event, now, reject, head).state;
            (t.relay.store == s.relay.store && t.relay.queue == s.relay.queue) <==>
            !reject && NoSlot(s.relay.queue, c, id)
  {
    Store.RollbackUndoesReserve(s.relay.store, event, id, now);
    if reject || !NoSlot(s.relay.queue, c, id) {
      assert event.key in DockSubmit(s, c, room, id, event, now, reject, head).state.relay.store.reserved;
    }
  }

  /** A new key that everybody takes: the fresh delivery is returned, and it is stored, reserved, journaled, queued
      and put last into the window, unless an item of its id is waiting there already. */
  lemma AcceptedEverywhere(s: Docked, c: Config, room: int, id: string, event: Event, now: Time, head: Option<string>)
    requires event.Valid() && event.key !in s.relay.store.reserved && id != ""
    requires !NoSlot(s.relay.queue, c, id) && (id in Batches.Ids(s.window) || |s.window| < room)
    ensures var a := DockSubmit(s, c, room, id, event, now, false, head);
            var d := Delivery(id, event, Pending, 0, now, "", 0, None, "");
            && a.err == None && a.delivery == Some(d)
            && a.state.relay.store ==
               Store.State(s.relay.store.deliveries[id := d], s.relay.store.reserved[event.key := id])
            && a.state.relay.journal == Journal.Recorded(s.relay.journal, id, event, Pending, now)
            && a.state.relay.queue == s.relay.queue[id := now] && a.state.relay.circuits == s.relay.circuits
            && a.state.window ==
               if id in Batches.Ids(s.window) then s.window else s.window + [Batches.Item(id, event, now)]
  {
  }

  /** What a Submit of a new key answers: whose refusal it reports, and the delivery unless it was undone. */
  lemma RefusalsReported(s: Docked, c: Config, room: int, id: string, event: Event, now: Time, reject: bool,
                         head: Option<string>)
    requires event.Valid() && event.key !in s.relay.store.reserved
    ensures var a := DockSubmit(s, c, room, id, event, now, reject, head);
            var admitted := !reject && !NoSlot(s.relay.queue, c, id);
            && (a.err == Some(Relayed(JournalRejected)) <==> reject)
            && (a.err == Some(Relayed(QueueFull)) <==> !reject && NoSlot(s.relay.queue, c, id))
            && (a.err == Some(Windowed(Batches.UnknownItem)) <==> admitted && id == "")
            && (a.err == Some(Windowed(Batches.WindowFull)) <==>
                admitted && id != "" && id !in Batches.Ids(s.window) && |s.window| >= room)
            && (a.delivery == if admitted then Some(Delivery(id, event, Pending, 0, now, "", 0, None, "")) else None)
            && (a.err.Some? ==> a.state.window == s.window)
            && a.state.relay.journal ==
               if reject then s.relay.journal else Journal.Recorded(s.relay.journal, id, event, Pending, now)
  {
  }

  /** A malformed event and a known key change nothing; the known key is answered with what is stored under its id,
      the malformed event with an error. */
  lemma NothingNewAnswers(s: Docked, c: Config, room: int, id: string, event: Event, now: Time, reject: bool,
                          head: Option<string>)
    ensures var a := DockSubmit(s, c, room, id, event, now, reject, head);
            var malformed := event.id == "" || event.tenant == "" || event.endpoint == "" || event.key == ""
                             || |event.payload| == 0;
            && (a.err == Some(Relayed(InvalidState)) <==> malformed)
            && (malformed ==> a == Answer(s, None, Some(Relayed(InvalidState))))
            && (!malformed && event.key in s.relay.store.reserved ==>
                  a == Answer(s, Lookup(s.relay.store.deliveries, s.relay.store.reserved[event.key]), None))
  {
  }

  /** After a rejection the key is spent: it stays reserved with no delivery behind it, and
      every later Submit of it reports success with the zero delivery and changes nothing. */
  lemma RejectionSpendsKey(s: Docked, c: Config, room: int, id: string, event: Event, now: Time, head: Option<string>,
                           again: Event, id2: string, later: Time, reject2: bool, head2: Option<string>)
    requires event.Valid() && event.key !in s.relay.store.reserved && id !in s.relay.store.deliveries
    requires again.Valid() && again.key == event.key
    ensures var t := DockSubmit(s, c, room, id, event, now, true, head).state;
            && t.relay.store == s.relay.store.(reserved := s.relay.store.reserved[event.key := id])
            && DockSubmit(t, c, room, id2, again, later, reject2, head2) == Answer(t, None, None)
  {
    var reserved := Store.Reserved(s.relay.store, event, id, now).0;
    assert reserved.deliveries - {id} == s.relay.store.deliveries;
  }

  /** The queue loses an id exactly when the journal rejects a new key and something is due. */
  lemma QueueLosesExactly(s: Docked, c: Config, room: int, id: string, event: Event, now: Time, reject: bool,
                          head: Option<string>)
    requires IsHead(s.relay.queue, now, head)
    ensures var t := DockSubmit(s, c, room, id, event, now, reject, head).state;
            (exists x :: x in s.relay.queue && x !in t.relay.queue) <==>
            event.Valid() && event.key !in s.relay.store.reserved && reject && Schedule.Due(s.relay.queue, now) != {}
  {
    var t := DockSubmit(s, c, room, id, event, now, reject, head).state;
    if head.Some? {
      assert head.value in Schedule.Due(s.relay.queue, now) && head.value in s.relay.queue;
      assert event.Valid() && event.key !in s.relay.store.reserved && reject ==> head.value !in t.relay.queue;
    }
  }

  /** What it loses is the delivery that was next: pending and due before, pending and due after, and no longer
      queued. */
  lemma RejectionDropsAnother(s: Docked, c: Config, room: int, id: string, event: Event, now: Time, x: string)
    requires IsHead(s.relay.queue, now, Some(x)) && x in DuePending(s.relay.store, now)
    requires event.Valid() && event.key !in s.relay.store.reserved && id !in s.relay.store.deliveries
    ensures var t := DockSubmit(s, c, room, id, event, now, true, Some(x)).state.relay;
            && t.queue.Keys == s.relay.queue.Keys - {x}
            && Lookup(t.store.deliveries, x) == Lookup(s.relay.store.deliveries, x)
            && x in DuePending(t.store, now)
  {
    var t := DockSubmit(s, c, room, id, event, now, true, Some(x)).state.relay;
    assert Store.Reserved(s.relay.store, event, id, now).0.deliveries - {id} == s.relay.store.deliveries;
    assert x in DuePending(t.store, now);
  }

  /** Ids are never empty. With a full window Submit reports a failure and has admitted the delivery all the same. */
  lemma FullWindowAdmits(s: Docked, c: Config, room: int, id: string, event: Event, now: Time, head: Option<string>)
    requires event.Valid() && event.key !in s.relay.store.reserved && id != ""
    requires !NoSlot(s.relay.queue, c, id) && id !in Batches.Ids(s.window) && |s.window| >= room
    ensures var a := DockSubmit(s, c, room, id, event, now, false, head);
            && a.err == Some(Windowed(Batches.WindowFull)) && a.state.window == s.window
            && a.delivery == Some(Delivery(id, event, Pending, 0, now, "", 0, None, ""))
            && Lookup(a.state.relay.store.deliveries, id) == a.delivery
            && Lookup(a.state.relay.store.reserved, event.key) == Some(id)
            && a.state.relay.journal == Journal.Recorded(s.relay.journal, id, event, Pending, now)
            && a.state.relay.queue == s.relay.queue[id := now]
  {
  }

  /** The id the service makes from the chosen endpoint and the key. */
  function DeliveryId(endpoint: string, key: string): string {
    "delivery-" + endpoint + "-" + key
  }

  /** Two endpoints and two keys may share an id, with no hash involved. */
  lemma IdsCollide()
    ensures DeliveryId("a", "b-c") == DeliveryId("a-b", "c")
  {
    assert "delivery-" + "a" + "-" + "b-c" == "delivery-a-b-c" == "delivery-" + "a-b" + "-" + "c";
  }

  /** A new key under an id that is already stored replaces the delivery that was there. */
  lemma CollisionReplaces(s: Docked, c: Config, room: int, id: string, event: Event, now: Time, head: Option<string>)
    requires event.Valid() && event.key !in s.relay.store.reserved && id in s.relay.store.deliveries
    requires !NoSlot(s.relay.queue, c, id)
    ensures var t := DockSubmit(s, c, room, id, event, now, false, head).state.relay;
            && Lookup(t.store.deliveries, id) == Some(Delivery(id, event, Pending, 0, now, "", 0, None, ""))
            && t.store.deliveries.Keys == s.relay.store.deliveries.Keys
  {
    assert s.relay.store.deliveries.Keys + {id} == s.relay.store.deliveries.Keys;
  }

  const ONE := Event("evt-1", "acme", "endpoint-a", "key-1", [1], 0, 0)
  const TWO := Event("evt-2", "acme", "endpoint-a", "key-2", [1], 0, 0)

  /** Two Submits from the empty service, with a window for one item: the second fails, and is admitted. */
  lemma SecondSubmitFailsAndIsAdmitted()
    ensures var c := Config(2, Breaker.Limits(5, HOUR));
            var first := DockSubmit(Docked(EMPTY, []), c, 1, "delivery-1", ONE, 0, false, None);
            var second := DockSubmit(first.state, c, 1, "delivery-2", TWO, 0, false, None);
            && first.err == None
            && second.err == Some(Windowed(Batches.WindowFull))
            && Lookup(second.state.relay.store.deliveries, "delivery-2").Some?
            && "key-2" in second.state.relay.store.reserved && "delivery-2" in second.state.relay.queue
  {
    var c := Config(2, Breaker.Limits(5, HOUR));
    var first := DockSubmit(Docked(EMPTY, []), c, 1, "delivery-1", ONE, 0, false, None);
    assert first.state.window == [Batches.Item("delivery-1", ONE, 0)];
    assert first.state.relay.queue == map["delivery-1" := 0];
    assert "delivery-1"[9] != "delivery-2"[9];
    FullWindowAdmits(first.state, c, 1, "delivery-2", TWO, 0, None);
  }

  function DuePending(s: Store.State, now: Time): set<string> {
    set id | id in s.deliveries && s.deliveries[id].state == Pending && s.deliveries[id].nextAttempt <= now
  }

  class Service {
    const store: Store.Memory
    const journal: Journal.Memory
    const queue: Queue.Scheduler
    const window: BatchWindow.Window

    constructor (store: Store.Memory, journal: Journal.Memory, queue: Queue.Scheduler, window: BatchWindow.Window)
      ensures this.store == store && this.journal == journal && this.queue == queue && this.window == window
    {
      this.store, this.journal, this.queue, this.window := store, journal, queue, window;
    }

    ghost function View(circuits: Breaker.Circuits): Docked
      reads store, journal, queue, window
    {
      Docked(Relay(store.View(), journal.entries, queue.contents, circuits), window.contents)
    }

    /** `head` names what PopReady returned if the journal rejected the entry. */
    method Submit(id: string, event: Event, now: Time, ghost circuits: Breaker.Circuits, ghost limits: Breaker.Limits)
      returns (delivery: Option<Delivery>, err: Option<Cause>, ghost head: Option<string>)
      requires queue.Valid() && window.Valid()
      modifies store, journal, queue, queue.items, window
      ensures queue.Valid() && window.Valid() && fresh(queue.items - old(queue.items))
      ensures head == old(queue.Head(now)) && IsHead(old(queue.contents), now, head)
      ensures Answer(View(circuits), delivery, err) ==
              DockSubmit(old(View(circuits)), Config(queue.capacity, limits), window.capacity, id, event, now,
                         old(journal.failNext), head)
    {
      head := queue.Head(now);
      HeadOf(now);
      delivery, err := None, Some(Relayed(InvalidState));
      if event.Valid() {
        var created;
        delivery, created := store.Reserve(event, id, now);
        err := None;
        if created {
          delivery, err := Admit(event, id, delivery, now, circuits, limits, head);
        }
      }
    }

    lemma HeadOf(now: Time)
      requires queue.Valid()
      ensures IsHead(queue.contents, now, queue.Head(now))
    {
      queue.HeadOfContents(now);
      if queue.Head(now).None? {
        assert Schedule.Due(queue.contents, now) == {};
      }
    }

    /** Journals, queues and batches a fresh reservation. */
    method Admit(event: Event, id: string, reserved: Option<Delivery>, now: Time, ghost circuits: Breaker.Circuits,
                 ghost limits: Breaker.Limits, ghost head: Option<string>)
      returns (delivery: Option<Delivery>, err: Option<Cause>)
      requires queue.Valid() && window.Valid() && head == queue.Head(now)
      modifies store, journal, queue, queue.items, window
      ensures queue.Valid() && window.Valid() && fresh(queue.items - old(queue.items))
      ensures Answer(View(circuits), delivery, err) ==
              Admitted(old(View(circuits)), Config(queue.capacity, limits), window.capacity, id, event, now,
                       old(journal.failNext), head, reserved)
    {
      var appended := journal.Append(id, event, Pending, now);
      if appended.Err? {
        Refuse(event, id, now, head);
        delivery, err := None, Some(Relayed(appended.error));
      } else {
        delivery, err := Enqueue(event, id, reserved, now, circuits, limits);
      }
    }

    /** The journal rejected the entry: the key is kept, and the queue loses its head. */
    method Refuse(event: Event, id: string, now: Time, ghost head: Option<string>)
      requires queue.Valid() && head == queue.Head(now)
      modifies store, queue, queue.items
      ensures queue.Valid() && fresh(queue.items - old(queue.items))
      ensures store.View() == Store.Kept(old(store.View()), event.key, id)
      ensures queue.contents == Behead(old(queue.contents), head)
    {
      store.KeepReservation(event.key, id);
      var popped := queue.PopReady(now);
    }

    method Enqueue(event: Event, id: string, reserved: Option<Delivery>, now: Time, ghost circuits: Breaker.Circuits,
                   ghost limits: Breaker.Limits)
      returns (delivery: Option<Delivery>, err: Option<Cause>)
      requires queue.Valid() && window.Valid()
      modifies store, queue, queue.items, window
      ensures queue.Valid() && window.Valid() && fresh(queue.items - old(queue.items))
      ensures Answer(View(circuits), delivery, err) ==
              Enqueued(old(View(circuits)), Config(queue.capacity, limits), window.capacity, id, event, now, reserved)
    {
      var full := queue.Schedule(id, now);
      if full.Some? {
        store.RollbackReservation(event.key, id);
        delivery, err := None, Some(Relayed(full.value));
      } else {
        var refusal := window.Add(Batches.Item(id, event, now));
        delivery, err := reserved, if refusal.Some? then Some(Windowed(refusal.value)) else None;
      }
    }

    /** Requeues every due pending delivery. Whatever order the store lists them in, the count is
        those already queued plus as many of the others as there are free slots. */
    method RetryOverdue(now: Time) returns (requeued: nat)
      requires queue.Valid() && forall id | id in store.deliveries :: store.deliveries[id].id == id
      modifies queue, queue.items
      ensures queue.Valid() && fresh(queue.items - old(queue.items))
      ensures var due, q := DuePending(store.View(), now), old(queue.contents);
              && requeued == |due * q.Keys| + Overdue.Taken(q.Keys, due, Overdue.Free(q, queue.capacity))
              && q.Keys <= queue.contents.Keys <= q.Keys + due
              && (forall id | id in queue.contents ::
                    queue.contents[id] == if id in due then store.deliveries[id].nextAttempt else q[id])
              && (|due - q.Keys| <= Overdue.Free(q, queue.capacity) ==> queue.contents.Keys == q.Keys + due)
    {
      var pending := store.ByState(Pending);
      ghost var q := queue.contents;
      requeued := Requeue(pending, now);
      Swept(store.View(), pending, q, queue.capacity, now);
    }

    method Requeue(pending: seq<Delivery>, now: Time) returns (requeued: nat)
      requires queue.Valid()
      modifies queue, queue.items
      ensures queue.Valid() && fresh(queue.items - old(queue.items))
      ensures (queue.contents, requeued) == Overdue.Requeued(old(queue.contents), queue.capacity, pending, now)
    {
      ghost var q := queue.contents;
      requeued := 0;
      for i := 0 to |pending|
        invariant queue.Valid() && fresh(queue.items - old(queue.items))
        invariant (queue.contents, requeued) == Overdue.Requeued(q, queue.capacity, pending[..i], now)
      {
        var d := pending[i];
        assert pending[..i + 1][..i] == pending[..i];
        if !(d.nextAttempt > now) {
          var full := queue.Schedule(d.id, d.nextAttempt);
          if full.None? {
            requeued := requeued + 1;
          }
        }
      }
      assert pending[..|pending|] == pending;
    }
  }

  lemma Swept(s: Store.State, pending: seq<Delivery>, q: Schedule.Ready, capacity: int, now: Time)
    requires forall id | id in s.deliveries :: s.deliveries[id].id == id
    requires forall d :: d in pending <==>
             exists id :: id in s.deliveries && s.deliveries[id] == d && d.state == Pending
    requires forall i, j | 0 <= i < j < |pending| :: pending[i].id != pending[j].id
    ensures var due, (q', n) := DuePending(s, now), Overdue.Requeued(q, capacity, pending, now);
            && n == |due * q.Keys| + Overdue.Taken(q.Keys, due, Overdue.Free(q, capacity))
            && q.Keys <= q'.Keys <= q.Keys + due
            && (forall id | id in q' :: q'[id] == if id in due then s.deliveries[id].nextAttempt else q[id])
            && (|due - q.Keys| <= Overdue.Free(q, capacity) ==> q'.Keys == q.Keys + due)
  {
    Overdue.DistinctByIndex(pending);
    assert Overdue.DueIds(pending, now) == DuePending(s, now);
    Overdue.RequeuedCount(q, capacity, pending, now);
    Overdue.RequeuedKeys(q, capacity, pending, now);
    var q' := Overdue.Requeued(q, capacity, pending, now).0;
    forall id | id in q' ensures q'[id] == if id in DuePending(s, now) then s.deliveries[id].nextAttempt else q[id] {
      Overdue.RequeuedReady(q, capacity, pending, now, id);
    }
    if |DuePending(s, now) - q.Keys| <= Overdue.Free(q, capacity) {
      Overdue.AllDueFit(q, capacity, pending, now);
    }
  }
}
