/** Admission and the worker's steps, each as one transition of the whole relay. */
module Transactions {
  import opened Core
  import Store
  import Journal
  import Schedule
  import Breaker

  datatype Relay = Relay(
    store: Store.State, journal: Journal.Log, queue: Schedule.Ready, circuits: Breaker.Circuits)

  const EMPTY := Relay(Store.EMPTY, [], map[], map[])

  datatype Config = Config(capacity: int, limits: Breaker.Limits)

  datatype Worker = Worker(id: string, ttl: Duration, maxAttempts: int)

  /** The retry delay: doubling from one second, then a flat hour from attempt 30 on. */
  function BackoffFor(attempt: int): Duration {
    if attempt >= 30 then HOUR else SECOND * Pow2(if attempt < 0 then 0 else attempt)
  }

  /** Every delay is positive and fits Go's int64 nanoseconds. */
  lemma BackoffFits(attempt: int)
    ensures 0 < BackoffFor(attempt) <= MAX_DURATION
  {
    if attempt < 30 {
      var k: nat := if attempt < 0 then 0 else attempt;
      Pow2Monotone(0, k);
      Pow2Monotone(k, 29);
      Pow2At29();
    }
  }

  lemma Pow2At29()
    ensures Pow2(29) == 0x2000_0000
  {
    assert Pow2(5) == 32;
    assert Pow2(10) == 1024;
    assert Pow2(15) == 32768;
    assert Pow2(20) == 1048576;
    assert Pow2(25) == 33554432;
  }

  /** The delay is neither monotone nor capped: attempt 29 waits longer than attempt 30. */
  lemma BackoffDropsAtThirty()
    ensures BackoffFor(29) > BackoffFor(30) == HOUR
  {
    Pow2At29();
  }

  lemma Pow2Between(k: nat)
    ensures k <= 11 ==> Pow2(k) <= 2048
    ensures 12 <= k ==> 4096 <= Pow2(k)
  {
    assert Pow2(6) == 64 && Pow2(11) == 2048;
    if k <= 11 { Pow2Monotone(k, 11); } else { Pow2Monotone(12, k); }
  }

  /** The delay is within an hour exactly up to attempt 11 and from attempt 30 on. */
  lemma BackoffCappedExactly(attempt: int)
    ensures BackoffFor(attempt) <= HOUR <==> attempt <= 11 || attempt >= 30
  {
    if 0 <= attempt < 30 {
      Pow2Between(attempt);
    }
  }

  /** The delay does not shrink from one attempt to a later one, except exactly from attempts 12 to 29
      to attempt 30 or later. */
  lemma BackoffMonotoneExactly(a: int, b: int)
    requires a <= b
    ensures BackoffFor(a) <= BackoffFor(b) <==> !(12 <= a < 30 <= b)
  {
    BackoffCappedExactly(a);
    if b < 30 {
      Pow2Monotone(if a < 0 then 0 else a, if b < 0 then 0 else b);
    }
  }

  /** It starts at a second and doubles up to attempt 29; from attempt 30 on it is an hour. */
  lemma BackoffDoubles(attempt: int)
    ensures attempt <= 0 ==> BackoffFor(attempt) == SECOND
    ensures 0 <= attempt < 29 ==> BackoffFor(attempt + 1) == 2 * BackoffFor(attempt)
    ensures attempt >= 30 ==> BackoffFor(attempt) == 3600 * SECOND
  {
    if 0 <= attempt < 29 {
      assert Pow2(attempt + 1) == 2 * Pow2(attempt);
    }
  }

  // ---------- Pieces ----------

  function WithDelivery(s: Relay, id: string, r: Result<Delivery>): Relay {
    s.(store := Store.Saved(s.store, id, r))
  }

  function WithEntry(s: Relay, reject: bool, id: string, event: Event, transition: DeliveryState, at: Time): Relay {
    if reject then s else s.(journal := Journal.Recorded(s.journal, id, event, transition, at))
  }

  function WithSchedule(s: Relay, c: Config, id: string, ready: Time): Relay {
    s.(queue := Schedule.Updated(s.queue, Schedule.Scheduled(s.queue, c.capacity, id, ready)))
  }

  function ScheduleError(s: Relay, c: Config, id: string, ready: Time): Option<Error> {
    match Schedule.Scheduled(s.queue, c.capacity, id, ready)
    case Ok(_) => None
    case Err(e) => Some(e)
  }

  /** The queue has no slot for `id`. */
  predicate NoSlot(q: Schedule.Ready, c: Config, id: string) {
    id !in q && Schedule.Full(q, c.capacity)
  }

  /** What one worker step did to the delivery it was given. */
  datatype Fate =
    | Refused       // no lease
    | Deferred      // leased, but the circuit is open: back to pending
    | Done          // sent and journaled
    | Unjournaled   // sent, but the journal rejected the Delivered entry
    | Conflicted    // sent, but the lease was lost
    | Buried        // failed for the last time and journaled dead
    | Resurrected   // failed for the last time, but the Dead entry was rejected
    | Rescheduled   // failed and queued again
    | Stranded      // failed, and the Pending entry was rejected: not queued again
    | Abandoned     // StepFor: failed and left leased

  predicate Sent(fate: Fate) {
    fate != Refused && fate != Deferred
  }

  datatype Outcome = Outcome(relay: Relay, delivered: bool, err: Option<Error>, fate: Fate)

  // ---------- Worker.Step after PopReady, and Worker.StepFor ----------

  function Defer(s: Relay, c: Config, w: Worker, d: Delivery, id: string, now: Time): Outcome {
    var r := Store.Retried(s.store, id, w.id, d.leaseEpoch, now + SECOND, CircuitOpen);
    var t := WithDelivery(s, id, r);
    Outcome(if r.Ok? then WithSchedule(t, c, id, r.value.nextAttempt) else t, false, Some(CircuitOpen), Deferred)
  }

  function Finish(s: Relay, w: Worker, d: Delivery, id: string, now: Time, reject: bool, forced: bool): Outcome {
    match Store.Completed(s.store, id, w.id, d.leaseEpoch)
    case Err(e) => Outcome(s, false, Some(e), Conflicted)
    case Ok(done) =>
      Outcome(WithEntry(WithDelivery(s, id, Ok(done)), reject, id, done.event, Delivered, now),
              !(forced && reject), if reject then Some(JournalRejected) else None,
              if reject then Unjournaled else Done)
  }

  function Bury(s: Relay, c: Config, w: Worker, d: Delivery, id: string, now: Time, cause: Error,
                reject: bool): Outcome {
    match Store.Died(s.store, id, w.id, d.leaseEpoch, cause)
    case Err(e) => Outcome(s, false, Some(e), Conflicted)
    case Ok(dead) =>
      var t := WithEntry(WithDelivery(s, id, Ok(dead)), reject, id, dead.event, Dead, now);
      if reject then Outcome(Revive(t, c, id, now), false, Some(JournalRejected), Resurrected)
      else Outcome(t, false, None, Buried)
  }

  function Revive(s: Relay, c: Config, id: string, now: Time): Relay {
    var r := Store.Revived(s.store, id, now + SECOND);
    var t := WithDelivery(s, id, r);
    if r.Ok? then WithSchedule(t, c, id, r.value.nextAttempt) else t
  }

  function Retry(s: Relay, c: Config, w: Worker, d: Delivery, id: string, now: Time, cause: Error,
                 reject: bool): Outcome {
    match Store.Retried(s.store, id, w.id, d.leaseEpoch, now + BackoffFor(d.attempt), cause)
    case Err(e) => Outcome(s, false, Some(e), Conflicted)
    case Ok(pending) =>
      var t := WithEntry(WithDelivery(s, id, Ok(pending)), reject, id, pending.event, Pending, now);
      if reject then Outcome(t, false, Some(JournalRejected), Stranded)
      else
        Outcome(WithSchedule(t, c, id, pending.nextAttempt), false,
                ScheduleError(t, c, id, pending.nextAttempt), Rescheduled)
  }

  /** Acquire, ask the breaker, send and settle. `send` is the sender's error, if it failed;
      `reject` says whether the journal rejects the entry this step appends. */
  function Work(s: Relay, c: Config, w: Worker, id: string, now: Time,
                send: Option<string>, reject: bool, forced: bool): Outcome {
    match Store.Acquired(s.store, id, w.id, now, w.ttl)
    case Err(e) => Outcome(s, false, Some(e), Refused)
    case Ok(d) => Asked(WithDelivery(s, id, Ok(d)), c, w, d, id, now, send, reject, forced)
  }

  /** With the lease held as `d`: ask the breaker, then send. */
  function Asked(s: Relay, c: Config, w: Worker, d: Delivery, id: string, now: Time,
                 send: Option<string>, reject: bool, forced: bool): Outcome {
    var endpoint := d.event.endpoint;
    if !Breaker.Admits(Breaker.At(s.circuits, endpoint), now) then Defer(s, c, w, d, id, now)
    else
      var reported := Breaker.Reported(Breaker.Admitted(s.circuits, endpoint), c.limits, endpoint, now, send.None?);
      Settled(s.(circuits := reported), c, w, d, id, now, send, reject, forced)
  }

  function Settled(s: Relay, c: Config, w: Worker, d: Delivery, id: string, now: Time,
                   send: Option<string>, reject: bool, forced: bool): Outcome {
    if send.None? then Finish(s, w, d, id, now, reject, forced)
    else if forced then Outcome(s, false, Some(SendFailed(send.value)), Abandoned)
    else if d.attempt + 1 >= w.maxAttempts then Bury(s, c, w, d, id, now, SendFailed(send.value), reject)
    else Retry(s, c, w, d, id, now, SendFailed(send.value), reject)
  }

  function Popped(s: Relay, id: string): Relay {
    s.(queue := s.queue - {id})
  }

  /** Worker.Step once PopReady has returned `id`. */
  function Step(s: Relay, c: Config, w: Worker, id: string, now: Time, send: Option<string>, reject: bool): Outcome {
    Work(Popped(s, id), c, w, id, now, send, reject, false)
  }

  /** Worker.StepFor: the queue is not consulted. */
  function StepFor(s: Relay, c: Config, w: Worker, id: string, now: Time, send: Option<string>, reject: bool): Outcome {
    Work(s, c, w, id, now, send, reject, true)
  }

  // ---------- Service.Submit ----------

  datatype Admission = Admission(relay: Relay, delivery: Option<Delivery>, created: bool, err: Option<Error>)

  /** `reject` and `rejectUndo` say whether the journal rejects the Pending entry and,
      after a full queue, the compensating Dead entry. */
  function Submit(s: Relay, c: Config, idOf: string -> string, event: Event, now: Time,
                  reject: bool, rejectUndo: bool): Admission {
    if !event.Valid() then Admission(s, None, false, Some(InvalidState))
    else
      var id := idOf(event.key);
      var (store, delivery, created) := Store.Reserved(s.store, event, id, now);
      if !created then Admission(s, delivery, false, None)
      else
        var (t, err) := Admit(s.(store := store), c, event, id, now, reject, rejectUndo);
        if err.None? then Admission(t, delivery, true, None) else Admission(t, None, false, err)
  }

  /** Journal and queue a fresh reservation, or undo it. */
  function Admit(s: Relay, c: Config, event: Event, id: string, now: Time,
                 reject: bool, rejectUndo: bool): (Relay, Option<Error>) {
    var undone := Store.RolledBack(s.store, event.key, id);
    if reject then (s.(store := undone), Some(JournalRejected))
    else
      var t := WithEntry(s, false, id, event, Pending, now);
      match ScheduleError(t, c, id, now)
      case None => (WithSchedule(t, c, id, now), None)
      case Some(e) => (WithEntry(t.(store := undone), rejectUndo, id, event, Dead, now), Some(e))
  }

  // ---------- What a worker step amounts to ----------

  /** The outcome of a step, read off its fate: which state the delivery is left in, which entry
      the journal gains and whether the queue gets the delivery back. */
  predicate Amounts(s: Relay, c: Config, id: string, now: Time, o: Outcome) {
    if o.fate == Refused then o.relay == s && !o.delivered && o.err.Some? && o.err.value != QueueFull
    else
      && id in s.store.deliveries && id in o.relay.store.deliveries
      && var d, d' := s.store.deliveries[id], o.relay.store.deliveries[id];
      && o.relay.store == s.store.(deliveries := s.store.deliveries[id := d'])
      && !d.Terminal() && d.nextAttempt <= now && d'.event == d.event && d'.id == d.id
      && d'.leaseEpoch == d.leaseEpoch + 1
      && (o.err == Some(QueueFull) ==> Schedule.Scheduled(s.queue, c.capacity, id, d'.nextAttempt) == Err(QueueFull))
      && match o.fate
         case Deferred =>
           d'.state == Pending && d'.nextAttempt == now + SECOND && SameJournal(s, o) && Requeued(s, c, id, o)
         case Done => d'.state == Delivered && Journaled(s, id, now, o, Delivered) && SameQueue(s, o)
         case Unjournaled => d'.state == Delivered && SameJournal(s, o) && SameQueue(s, o)
         case Buried => d'.state == Dead && Journaled(s, id, now, o, Dead) && SameQueue(s, o)
         case Resurrected =>
           d'.state == Pending && d'.nextAttempt == now + SECOND && SameJournal(s, o) && Requeued(s, c, id, o)
         case Rescheduled =>
           d'.state == Pending && d'.nextAttempt > now && Journaled(s, id, now, o, Pending) && Requeued(s, c, id, o)
         case Stranded => d'.state == Pending && d'.nextAttempt > now && SameJournal(s, o) && SameQueue(s, o)
         case Abandoned => d'.state == Leased && d'.nextAttempt == d.nextAttempt && SameJournal(s, o) && SameQueue(s, o)
         case Conflicted => false
         case Refused => false
  }

  predicate SameJournal(s: Relay, o: Outcome) {
    o.relay.journal == s.journal
  }

  predicate SameQueue(s: Relay, o: Outcome) {
    o.relay.queue == s.queue
  }

  predicate Journaled(s: Relay, id: string, now: Time, o: Outcome, transition: DeliveryState)
    requires id in s.store.deliveries
  {
    o.relay.journal == Journal.Recorded(s.journal, id, s.store.deliveries[id].event, transition, now)
  }

  predicate Requeued(s: Relay, c: Config, id: string, o: Outcome)
    requires id in o.relay.store.deliveries
  {
    o.relay.queue ==
    Schedule.Updated(s.queue, Schedule.Scheduled(s.queue, c.capacity, id, o.relay.store.deliveries[id].nextAttempt))
  }

  /** A step that is not interrupted never loses its lease, and amounts to what its fate says. */
  lemma WorkAmounts(s: Relay, c: Config, w: Worker, id: string, now: Time, send: Option<string>, reject: bool,
                    forced: bool)
    ensures Amounts(s, c, id, now, Work(s, c, w, id, now, send, reject, forced))
  {
    match Store.Acquired(s.store, id, w.id, now, w.ttl)
    case Err(_) =>
    case Ok(d) =>
      var leased := WithDelivery(s, id, Ok(d));
      if Breaker.Admits(Breaker.At(s.circuits, d.event.endpoint), now) {
        var reported := Breaker.Reported(Breaker.Admitted(s.circuits, d.event.endpoint), c.limits, d.event.endpoint,
                                         now, send.None?);
        SettledAmounts(s, leased.(circuits := reported), c, w, d, id, now, send, reject, forced);
      }
  }

  /** `sent` is `s` once the delivery is leased as `d` and the breaker has its report. */
  predicate JustSent(s: Relay, sent: Relay, w: Worker, d: Delivery, id: string, now: Time) {
    && Store.Acquired(s.store, id, w.id, now, w.ttl) == Ok(d)
    && sent == s.(store := s.store.(deliveries := s.store.deliveries[id := d]), circuits := sent.circuits)
  }

  lemma SettledAmounts(s: Relay, sent: Relay, c: Config, w: Worker, d: Delivery, id: string, now: Time,
                       send: Option<string>, reject: bool, forced: bool)
    requires JustSent(s, sent, w, d, id, now)
    ensures Amounts(s, c, id, now, Settled(sent, c, w, d, id, now, send, reject, forced))
  {
    if send.None? {
      FinishAmounts(s, sent, c, w, d, id, now, reject, forced);
    } else if forced {
    } else if d.attempt + 1 >= w.maxAttempts {
      BuryAmounts(s, sent, c, w, d, id, now, SendFailed(send.value), reject);
    } else {
      RetryAmounts(s, sent, c, w, d, id, now, SendFailed(send.value), reject);
    }
  }

  lemma FinishAmounts(s: Relay, sent: Relay, c: Config, w: Worker, d: Delivery, id: string, now: Time,
                      reject: bool, forced: bool)
    requires JustSent(s, sent, w, d, id, now)
    ensures Amounts(s, c, id, now, Finish(sent, w, d, id, now, reject, forced))
  {
    var d' := d.(state := Delivered, leaseOwner := "", leaseUntil := None);
    assert sent.store.deliveries[id := d'] == s.store.deliveries[id := d'];
  }

  lemma BuryAmounts(s: Relay, sent: Relay, c: Config, w: Worker, d: Delivery, id: string, now: Time,
                    cause: Error, reject: bool)
    requires JustSent(s, sent, w, d, id, now)
    ensures Amounts(s, c, id, now, Bury(sent, c, w, d, id, now, cause, reject))
  {
    var d' := Bury(sent, c, w, d, id, now, cause, reject).relay.store.deliveries[id];
    assert sent.store.deliveries[id := d'] == s.store.deliveries[id := d'];
  }

  lemma RetryAmounts(s: Relay, sent: Relay, c: Config, w: Worker, d: Delivery, id: string, now: Time,
                     cause: Error, reject: bool)
    requires JustSent(s, sent, w, d, id, now)
    ensures Amounts(s, c, id, now, Retry(sent, c, w, d, id, now, cause, reject))
  {
    BackoffFits(d.attempt);
    var d' := Retry(sent, c, w, d, id, now, cause, reject).relay.store.deliveries[id];
    assert sent.store.deliveries[id := d'] == s.store.deliveries[id := d'];
  }

  /** StepFor neither retries nor buries: a failed send leaves the lease standing. */
  lemma ForcedFate(s: Relay, c: Config, w: Worker, id: string, now: Time, send: Option<string>, reject: bool)
    ensures var o := StepFor(s, c, w, id, now, send, reject);
            && o.fate in {Refused, Deferred, Done, Unjournaled, Conflicted, Abandoned}
            && o.delivered == (o.fate == Done) && o.err.None? == (o.fate == Done)
  {
  }

  // ---------- Admission is all or nothing ----------

  /** The outcome of a Submit: a fresh delivery in all three places, or nothing but journal
      entries about an id that has no delivery. */
  predicate AdmissionAmounts(s: Relay, c: Config, id: string, event: Event, now: Time, r: Admission) {
    var pending := Journal.Recorded(s.journal, id, event, Pending, now);
    if r.created then
      && event.key !in s.store.reserved && id !in s.store.deliveries && r.err.None?
      && r.delivery == Some(Delivery(id, event, Pending, 0, now, "", 0, None, ""))
      && r.relay.store == Store.State(s.store.deliveries[id := r.delivery.value], s.store.reserved[event.key := id])
      && r.relay.journal == pending
      && Schedule.Scheduled(s.queue, c.capacity, id, now) == Ok(r.relay.queue)
      && r.relay.circuits == s.circuits
    else
      && r.relay == s.(journal := r.relay.journal)
      && (event.key !in s.store.reserved ==> r.err.Some?)
      && (r.relay.journal == s.journal
          || (id !in s.store.deliveries && r.err == Some(QueueFull)
              && (r.relay.journal == pending || r.relay.journal == Journal.Recorded(pending, id, event, Dead, now))))
  }

  lemma SubmitAmounts(s: Relay, c: Config, idOf: string -> string, event: Event, now: Time, reject: bool,
                      rejectUndo: bool)
    requires Injective(idOf) && Store.Consistent(s.store, idOf)
    ensures AdmissionAmounts(s, c, idOf(event.key), event, now, Submit(s, c, idOf, event, now, reject, rejectUndo))
  {
    if event.Valid() && event.key !in s.store.reserved {
      Store.UnreservedIsAbsent(s.store, idOf, event.key);
      Store.RollbackUndoesReserve(s.store, event, idOf(event.key), now);
    }
  }

  /** A rejected Submit leaves no trace outside the journal. */
  lemma RejectedSubmitUndone(s: Relay, c: Config, idOf: string -> string, event: Event, now: Time,
                             reject: bool, rejectUndo: bool)
    requires Injective(idOf) && Store.Consistent(s.store, idOf)
    requires Submit(s, c, idOf, event, now, reject, rejectUndo).err.Some?
    ensures Submit(s, c, idOf, event, now, reject, rejectUndo).relay ==
            s.(journal := Submit(s, c, idOf, event, now, reject, rejectUndo).relay.journal)
  {
    SubmitAmounts(s, c, idOf, event, now, reject, rejectUndo);
  }

  /** After a rejection the same key can still be admitted, as a fresh delivery. */
  lemma ResubmitAfterRejection(s: Relay, c: Config, idOf: string -> string, event: Event, now: Time, later: Time,
                               reject: bool, rejectUndo: bool)
    requires Injective(idOf) && Store.Consistent(s.store, idOf)
    requires event.Valid() && event.key !in s.store.reserved
    requires Submit(s, c, idOf, event, now, reject, rejectUndo).err.Some?
    ensures var t := Submit(s, c, idOf, event, now, reject, rejectUndo).relay;
            var again := Submit(t, c, idOf, event, later, false, false);
            if idOf(event.key) !in s.queue && Schedule.Full(s.queue, c.capacity) then again.err == Some(QueueFull)
            else
              && again.created && again.err.None?
              && again.delivery == Some(Delivery(idOf(event.key), event, Pending, 0, later, "", 0, None, ""))
              && again.relay.queue == s.queue[idOf(event.key) := later]
              && Lookup(again.relay.store.deliveries, idOf(event.key)) == again.delivery
  {
    RejectedSubmitUndone(s, c, idOf, event, now, reject, rejectUndo);
  }
}
