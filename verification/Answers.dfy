/** What the relay's operations answer and leave behind, told by what is there before and after them. */
module Answers {
  import opened Core
  import Store
  import Journal
  import Breaker
  import opened Transactions

  // ---------- Step and StepFor ----------

  /** A lease on `id` is to be had: still to be made, due, and nobody's unexpired lease. */
  predicate Leasable(s: Relay, id: string, now: Time) {
    && id in s.store.deliveries
    && var d := s.store.deliveries[id];
    && d.nextAttempt <= now
    && (d.state == Pending || (d.state == Leased && (d.leaseUntil.None? || d.leaseUntil.value <= now)))
  }

  /** The delivery is due, and under a lease that still runs. */
  predicate Contended(s: Relay, id: string, now: Time) {
    && id in s.store.deliveries
    && var d := s.store.deliveries[id];
    d.state == Leased && d.nextAttempt <= now && d.leaseUntil.Some? && now < d.leaseUntil.value
  }

  /** The sender is called: the delivery is leased, and its circuit lets the call through. */
  predicate Calls(s: Relay, id: string, now: Time) {
    Leasable(s, id, now) && Breaker.Admits(Breaker.At(s.circuits, s.store.deliveries[id].event.endpoint), now)
  }

  /** What becomes of a delivery that could be leased. */
  function Settlement(d: Delivery, w: Worker, now: Time, called: bool, send: Option<string>, reject: bool,
                      forced: bool): Delivery {
    if !called then Store.Freed(d, Pending, d.attempt + 1, now + SECOND, "endpoint circuit is open")
    else if send.None? then Store.Freed(d, Delivered, d.attempt, d.nextAttempt, d.lastError)
    else if forced then
      d.(state := Leased, leaseOwner := w.id, leaseEpoch := d.leaseEpoch + 1, leaseUntil := Some(now + w.ttl))
    else if d.attempt + 1 < w.maxAttempts then
      Store.Freed(d, Pending, d.attempt + 1, now + BackoffFor(d.attempt), send.value)
    else if reject then Store.Freed(d, Pending, d.attempt + 1, now + SECOND, "terminal journal append failed")
    else Store.Freed(d, Dead, d.attempt + 1, d.nextAttempt, send.value)
  }

  /** The delivery once leased by `w`. */
  function Held(s: Relay, w: Worker, id: string, now: Time): Delivery
    requires Leasable(s, id, now)
  {
    var d := s.store.deliveries[id];
    d.(state := Leased, leaseOwner := w.id, leaseEpoch := d.leaseEpoch + 1,
       leaseUntil := Some(now + w.ttl))
  }

  /** The relay once the sender has answered and the breaker has its report. */
  function Called(s: Relay, c: Config, w: Worker, id: string, now: Time, success: bool): Relay
    requires Leasable(s, id, now)
  {
    var endpoint := s.store.deliveries[id].event.endpoint;
    WithDelivery(s, id, Ok(Held(s, w, id, now))).(circuits :=
      Breaker.Reported(Breaker.Admitted(s.circuits, endpoint), c.limits, endpoint, now, success))
  }

  /** A step is refused, put off, or goes on to settle what the sender answered. */
  lemma ThreeWays(s: Relay, c: Config, w: Worker, id: string, now: Time, send: Option<string>, reject: bool,
                  forced: bool)
    ensures var o := Work(s, c, w, id, now, send, reject, forced);
            if Calls(s, id, now) then
              && JustSent(s, Called(s, c, w, id, now, send.None?), w, Held(s, w, id, now), id, now)
              && o == Settled(Called(s, c, w, id, now, send.None?), c, w, Held(s, w, id, now), id, now, send, reject,
                              forced)
            else if Leasable(s, id, now) then
              var d := Held(s, w, id, now);
              o == Defer(WithDelivery(s, id, Ok(d)), c, w, d, id, now)
            else
              && o.relay == s && !o.delivered
              && o.err == if Contended(s, id, now) then Some(LeaseConflict) else Some(InvalidState)
  {
  }

  // ---------- What is left of the delivery ----------

  /** Nothing of the store has changed but this delivery. */
  predicate Leaves(s: Relay, id: string, d: Delivery, o: Outcome) {
    o.relay.store == s.store.(deliveries := s.store.deliveries[id := d])
  }

  lemma DeferSettles(s: Relay, c: Config, w: Worker, id: string, now: Time)
    requires Leasable(s, id, now)
    ensures var d := Held(s, w, id, now);
            Leaves(s, id, Settlement(s.store.deliveries[id], w, now, false, None, false, false),
                   Defer(WithDelivery(s, id, Ok(d)), c, w, d, id, now))
  {
    var d := Held(s, w, id, now);
    var d' := Settlement(s.store.deliveries[id], w, now, false, None, false, false);
    assert s.store.deliveries[id := d][id := d'] == s.store.deliveries[id := d'];
  }

  lemma SendSettles(s: Relay, sent: Relay, c: Config, w: Worker, id: string, now: Time, send: Option<string>,
                    reject: bool, forced: bool)
    requires Leasable(s, id, now) && JustSent(s, sent, w, Held(s, w, id, now), id, now)
    ensures Leaves(s, id, Settlement(s.store.deliveries[id], w, now, true, send, reject, forced),
                   Settled(sent, c, w, Held(s, w, id, now), id, now, send, reject, forced))
  {
    var d := Held(s, w, id, now);
    var d' := Settlement(s.store.deliveries[id], w, now, true, send, reject, forced);
    assert s.store.deliveries[id := d][id := d'] == s.store.deliveries[id := d'];
    if send.None? {
    } else if forced {
    } else if d.attempt + 1 >= w.maxAttempts {
      BurySettles(s, sent, c, w, id, now, send.value, reject);
    } else {
      RetrySettles(s, sent, c, w, id, now, send.value, reject);
    }
  }

  lemma BurySettles(s: Relay, sent: Relay, c: Config, w: Worker, id: string, now: Time, text: string, reject: bool)
    requires Leasable(s, id, now) && JustSent(s, sent, w, Held(s, w, id, now), id, now)
    requires s.store.deliveries[id].attempt + 1 >= w.maxAttempts
    ensures Leaves(s, id, Settlement(s.store.deliveries[id], w, now, true, Some(text), reject, false),
                   Bury(sent, c, w, Held(s, w, id, now), id, now, SendFailed(text), reject))
  {
    var d := Held(s, w, id, now);
    var dead := Store.Freed(s.store.deliveries[id], Dead, d.attempt + 1, d.nextAttempt, text);
    var d' := Settlement(s.store.deliveries[id], w, now, true, Some(text), reject, false);
    assert s.store.deliveries[id := d][id := dead] == s.store.deliveries[id := dead];
    assert s.store.deliveries[id := dead][id := d'] == s.store.deliveries[id := d'];
  }

  lemma RetrySettles(s: Relay, sent: Relay, c: Config, w: Worker, id: string, now: Time, text: string, reject: bool)
    requires Leasable(s, id, now) && JustSent(s, sent, w, Held(s, w, id, now), id, now)
    requires s.store.deliveries[id].attempt + 1 < w.maxAttempts
    ensures Leaves(s, id, Settlement(s.store.deliveries[id], w, now, true, Some(text), reject, false),
                   Retry(sent, c, w, Held(s, w, id, now), id, now, SendFailed(text), reject))
  {
    var d := Held(s, w, id, now);
    var d' := Settlement(s.store.deliveries[id], w, now, true, Some(text), reject, false);
    assert s.store.deliveries[id := d][id := d'] == s.store.deliveries[id := d'];
  }

  /** Leased, asked about and settled, the delivery is exactly that, and no other has changed: buried by a failed
      Step precisely when its attempts are used up and the journal takes the Dead entry. */
  lemma StepSettles(s: Relay, c: Config, w: Worker, id: string, now: Time, send: Option<string>, reject: bool,
                    forced: bool)
    ensures var o := Work(s, c, w, id, now, send, reject, forced);
            if Leasable(s, id, now) then
              Leaves(s, id, Settlement(s.store.deliveries[id], w, now, Calls(s, id, now), send, reject, forced), o)
            else o.relay == s
  {
    ThreeWays(s, c, w, id, now, send, reject, forced);
    if Calls(s, id, now) {
      SendSettles(s, Called(s, c, w, id, now, send.None?), c, w, id, now, send, reject, forced);
    } else if Leasable(s, id, now) {
      DeferSettles(s, c, w, id, now);
    }
  }

  // ---------- What is answered ----------

  predicate DeliveredAt(s: Relay, id: string) {
    id in s.store.deliveries && s.store.deliveries[id].state == Delivered
  }

  predicate PendingAt(s: Relay, id: string) {
    id in s.store.deliveries && s.store.deliveries[id].state == Pending
  }

  /** The journal has one more entry. */
  predicate Entered(s: Relay, t: Relay) {
    |t.journal| == |s.journal| + 1
  }

  /** A step answers true exactly when it is the one that delivered; StepFor wants the entry journaled too. */
  lemma StepDeliversExactly(s: Relay, c: Config, w: Worker, id: string, now: Time, send: Option<string>, reject: bool,
                            forced: bool)
    ensures var o := Work(s, c, w, id, now, send, reject, forced);
            && (o.delivered <==> DeliveredAt(o.relay, id) && !DeliveredAt(s, id) && (forced ==> Entered(s, o.relay)))
            && (DeliveredAt(o.relay, id) && !DeliveredAt(s, id) <==> Calls(s, id, now) && send.None?)
  {
    ThreeWays(s, c, w, id, now, send, reject, forced);
    StepSettles(s, c, w, id, now, send, reject, forced);
  }

  /** What each error says. None: the outcome is journaled, and queued again if it is to be tried again. */
  predicate ErrsFor(s: Relay, id: string, now: Time, send: Option<string>, reject: bool, forced: bool, o: Outcome) {
    match o.err
    case None => Entered(s, o.relay) && (PendingAt(o.relay, id) ==> id in o.relay.queue)
    case Some(QueueFull) => Entered(s, o.relay) && PendingAt(o.relay, id) && id !in o.relay.queue
    case Some(JournalRejected) => Calls(s, id, now) && reject && (forced ==> send.None?) && o.relay.journal == s.journal
    case Some(SendFailed(text)) => Calls(s, id, now) && forced && send == Some(text) && o.relay.journal == s.journal
    case Some(CircuitOpen) => Leasable(s, id, now) && !Calls(s, id, now) && o.relay.journal == s.journal
    case Some(LeaseConflict) => Contended(s, id, now) && o.relay == s
    case Some(InvalidState) => !Leasable(s, id, now) && !Contended(s, id, now) && o.relay == s
  }

  lemma StepErrs(s: Relay, c: Config, w: Worker, id: string, now: Time, send: Option<string>, reject: bool,
                 forced: bool)
    ensures ErrsFor(s, id, now, send, reject, forced, Work(s, c, w, id, now, send, reject, forced))
  {
    ThreeWays(s, c, w, id, now, send, reject, forced);
    if Calls(s, id, now) {
      SendErrs(s, Called(s, c, w, id, now, send.None?), c, w, id, now, send, reject, forced);
    }
  }

  lemma SendErrs(s: Relay, sent: Relay, c: Config, w: Worker, id: string, now: Time, send: Option<string>,
                 reject: bool, forced: bool)
    requires Calls(s, id, now) && JustSent(s, sent, w, Held(s, w, id, now), id, now)
    ensures ErrsFor(s, id, now, send, reject, forced,
                    Settled(sent, c, w, Held(s, w, id, now), id, now, send, reject, forced))
  {
    if send.Some? && !forced {
      if s.store.deliveries[id].attempt + 1 < w.maxAttempts {
        RetryErrs(s, sent, c, w, id, now, send, reject);
      }
    }
  }

  lemma RetryErrs(s: Relay, sent: Relay, c: Config, w: Worker, id: string, now: Time, send: Option<string>,
                  reject: bool)
    requires Calls(s, id, now) && JustSent(s, sent, w, Held(s, w, id, now), id, now) && send.Some?
    ensures ErrsFor(s, id, now, send, reject, false,
                    Retry(sent, c, w, Held(s, w, id, now), id, now, SendFailed(send.value), reject))
  {
  }

  /** So the error tells what did not happen: the lease, the call, the send, the entry or the slot; and none
      means that the outcome is journaled, and queued again if the delivery is to be tried again. */
  lemma StepErrsExactly(s: Relay, c: Config, w: Worker, id: string, now: Time, send: Option<string>, reject: bool,
                        forced: bool)
    ensures var o := Work(s, c, w, id, now, send, reject, forced);
            var entered, again := Entered(s, o.relay), PendingAt(o.relay, id);
            && (o.err == None <==> entered && (again ==> id in o.relay.queue))
            && (o.err == Some(QueueFull) <==> entered && again && id !in o.relay.queue)
            && (o.err == Some(JournalRejected) <==> Calls(s, id, now) && reject && (forced ==> send.None?))
            && (o.err == Some(CircuitOpen) <==> Leasable(s, id, now) && !Calls(s, id, now))
            && (o.err == Some(LeaseConflict) <==> Contended(s, id, now))
            && (o.err == Some(InvalidState) <==> !Leasable(s, id, now) && !Contended(s, id, now))
            && forall text :: o.err == Some(SendFailed(text)) <==> Calls(s, id, now) && forced && send == Some(text)
  {
    StepErrs(s, c, w, id, now, send, reject, forced);
  }

  // ---------- Submit ----------

  predicate Malformed(event: Event) {
    event.id == "" || event.tenant == "" || event.endpoint == "" || event.key == "" || |event.payload| == 0
  }

  /** Everything a Submit can answer. A malformed event is an error; a reserved key gives what is stored under its
      id; a new key is refused exactly by the journal or by a full queue, and is otherwise created, and the fresh
      delivery returned. */
  lemma SubmitAnswersExactly(s: Relay, c: Config, idOf: string -> string, event: Event, now: Time, reject: bool,
                             rejectUndo: bool)
    ensures var r := Submit(s, c, idOf, event, now, reject, rejectUndo);
            var id := idOf(event.key);
            && (r.err == Some(InvalidState) <==> Malformed(event))
            && (!Malformed(event) && event.key in s.store.reserved ==>
                  r == Admission(s, Lookup(s.store.deliveries, s.store.reserved[event.key]), false, None))
            && (r.err == Some(JournalRejected) <==> !Malformed(event) && event.key !in s.store.reserved && reject)
            && (r.err == Some(QueueFull) <==>
                !Malformed(event) && event.key !in s.store.reserved && !reject && NoSlot(s.queue, c, id))
            && (r.created <==>
                !Malformed(event) && event.key !in s.store.reserved && !reject && !NoSlot(s.queue, c, id))
            && (r.created ==> r.err.None? && r.delivery == Some(Delivery(id, event, Pending, 0, now, "", 0, None, "")))
            && (r.err.Some? ==> r.delivery == None && !r.created)
            && r.relay.journal ==
               (if r.created then Journal.Recorded(s.journal, id, event, Pending, now)
                else if r.err != Some(QueueFull) then s.journal
                else if rejectUndo then Journal.Recorded(s.journal, id, event, Pending, now)
                else Journal.Recorded(Journal.Recorded(s.journal, id, event, Pending, now), id, event, Dead, now))
            && r.err in {None, Some(InvalidState), Some(JournalRejected), Some(QueueFull)}
  {
  }
}
