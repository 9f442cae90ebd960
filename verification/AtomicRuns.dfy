/** Runs of the relay in which every Submit, Step, StepFor and RetryOverdue is one transition, and in which the
    scheduler may be replaced by a fresh one that a replay of the journal fills. */
module AtomicRuns {
  import opened Core
  import Store
  import Journal
  import Schedule
  import Breaker
  import Overdue
  import Lists
  import Replaying
  import opened Transactions

  /** The relay, and three facts of its history: which deliveries completed although the journal rejected
      their Delivered entry, which were left unqueued by a rejected Pending entry or a full queue, and which
      a step popped before they were due. An id that is queued again leaves the last two. */
  datatype World = World(relay: Relay, lost: set<string>, stranded: set<string>, early: set<string>)

  datatype Action =
    | Submit(event: Event, now: Time, reject: bool, rejectUndo: bool)
    | Step(worker: Worker, id: string, now: Time, send: Option<string>, reject: bool)
    | StepFor(worker: Worker, id: string, now: Time, send: Option<string>, reject: bool)
    | RetryOverdue(listed: seq<Delivery>, now: Time)
    | Restart

  const START := World(EMPTY, {}, {}, {})

  /** `listed` is the store's list of pending deliveries, in some order. */
  predicate ListsPending(s: Store.State, listed: seq<Delivery>) {
    && Overdue.Distinct(listed)
    && (forall d | d in listed :: Lookup(s.deliveries, d.id) == Some(d) && d.state == Pending)
    && (forall id | id in s.deliveries && s.deliveries[id].state == Pending :: s.deliveries[id] in listed)
  }

  /** The relay moves on; what is queued is neither stranded nor too early. */
  function WithRelay(x: World, r: Relay): World {
    World(r, x.lost, x.stranded - r.queue.Keys, x.early - r.queue.Keys)
  }

  /** The step should have queued the delivery again and could not. */
  predicate Unslotted(s: Relay, c: Config, id: string, fate: Fate) {
    fate == Stranded
    || ((fate == Deferred || fate == Resurrected || fate == Rescheduled) && NoSlot(s.queue, c, id))
  }

  /** A step that pops `id` now pops it before it is due. */
  predicate TooSoon(s: Relay, id: string, now: Time) {
    id in s.store.deliveries && s.store.deliveries[id].state == Pending && now < s.store.deliveries[id].nextAttempt
  }

  function Noted(x: World, c: Config, id: string, o: Outcome, early: bool): World {
    WithRelay(World(x.relay,
                    if o.fate == Unjournaled then x.lost + {id} else x.lost,
                    if Unslotted(x.relay, c, id, o.fate) then x.stranded + {id} else x.stranded,
                    if early then x.early + {id} else x.early),
              o.relay)
  }

  /** The world in which `id` has just been popped. */
  function Pop(x: World, id: string): World {
    x.(relay := Popped(x.relay, id))
  }

  /** One transition. A Step whose `id` is not what PopReady may return does not happen, nor
      does a RetryOverdue over anything but the pending deliveries. */
  function Exec(x: World, c: Config, idOf: string -> string, a: Action): World {
    match a
    case Submit(event, now, reject, rejectUndo) =>
      WithRelay(x, Transactions.Submit(x.relay, c, idOf, event, now, reject, rejectUndo).relay)
    case Step(worker, id, now, send, reject) =>
      if !Schedule.IsNext(x.relay.queue, now, id) then x
      else Noted(Pop(x, id), c, id, Transactions.Step(x.relay, c, worker, id, now, send, reject),
                 TooSoon(x.relay, id, now))
    case StepFor(worker, id, now, send, reject) =>
      Noted(x, c, id, Transactions.StepFor(x.relay, c, worker, id, now, send, reject), false)
    case RetryOverdue(listed, now) =>
      if !ListsPending(x.relay.store, listed) then x
      else WithRelay(x, x.relay.(queue := Overdue.Requeued(x.relay.queue, c.capacity, listed, now).0))
    case Restart => WithRelay(x, x.relay.(queue := Replayed(x.relay, c.capacity)))
  }

  /** The queue after a fresh Replay's RunAll into a fresh scheduler. */
  function Replayed(s: Relay, capacity: int): Schedule.Ready {
    Replaying.Replayed(map[], capacity, s.journal).queue
  }

  function RunFrom(x: World, c: Config, idOf: string -> string, actions: seq<Action>): World {
    if actions == [] then x
    else Exec(RunFrom(x, c, idOf, actions[..|actions| - 1]), c, idOf, actions[|actions| - 1])
  }

  function Run(c: Config, idOf: string -> string, actions: seq<Action>): World {
    RunFrom(START, c, idOf, actions)
  }

  lemma {:induction false} RunInTwo(x: World, c: Config, idOf: string -> string, a: seq<Action>,
                                    b: seq<Action>)
    ensures RunFrom(x, c, idOf, a + b) == RunFrom(RunFrom(x, c, idOf, a), c, idOf, b)
  {
    Lists.InTwoPieces(a, b);
    if b != [] {
      var front, last := b[..|b| - 1], b[|b| - 1];
      RunInTwo(x, c, idOf, a, front);
      RunOneMore(x, c, idOf, a + front, last);
      RunOneMore(RunFrom(x, c, idOf, a), c, idOf, front, last);
    }
  }

  lemma RunOneMore(x: World, c: Config, idOf: string -> string, actions: seq<Action>, a: Action)
    ensures RunFrom(x, c, idOf, actions + [a]) == Exec(RunFrom(x, c, idOf, actions), c, idOf, a)
  {
    assert (actions + [a])[..|actions|] == actions;
  }

  // ---------- What one worker step touches ----------

  /** Everything about deliveries other than `id` is as it was, and `id` keeps its event. */
  ghost predicate Confined(s: Relay, t: Relay, id: string) {
    && t.store.reserved == s.store.reserved
    && t.store.deliveries.Keys == s.store.deliveries.Keys
    && (forall other | other != id ::
          && Lookup(t.store.deliveries, other) == Lookup(s.store.deliveries, other)
          && Journal.Last(t.journal, other) == Journal.Last(s.journal, other)
          && Lookup(t.queue, other) == Lookup(s.queue, other))
    && (id in s.store.deliveries ==>
          t.store.deliveries[id].id == s.store.deliveries[id].id
          && t.store.deliveries[id].event == s.store.deliveries[id].event)
  }

  lemma OutcomeIsConfined(s: Relay, c: Config, id: string, now: Time, o: Outcome)
    requires Amounts(s, c, id, now, o)
    ensures Confined(s, o.relay, id)
  {
    if |o.relay.journal| > |s.journal| {
      var e := o.relay.journal[|s.journal|];
      Journal.LastAfterRecord(s.journal, id, e.event, e.transition, e.at);
    }
  }

  // ---------- Journal and store ----------

  /** How a delivery and its newest journal entry fit together. */
  predicate Agrees(d: Option<Delivery>, last: Option<Journal.Entry>, lost: bool) {
    match d
    case None => !lost && (last.Some? ==> last.value.transition == Pending || last.value.transition == Dead)
    case Some(d) =>
      && last.Some? && last.value.event == d.event
      && match d.state
         case Pending => !lost && last.value.transition == Pending && last.value.at <= d.nextAttempt
         case Leased => !lost && last.value.transition == Pending && last.value.at <= d.nextAttempt
         case Delivered => last.value.transition == if lost then Pending else Delivered
         case Dead => !lost && last.value.transition == Dead
  }

  predicate AgreesOn(x: World, id: string) {
    Agrees(Lookup(x.relay.store.deliveries, id), Journal.Last(x.relay.journal, id), id in x.lost)
  }

  ghost predicate AllAgree(x: World) {
    forall id :: AgreesOn(x, id)
  }

  ghost predicate Agreement(x: World, idOf: string -> string) {
    Store.Consistent(x.relay.store, idOf) && AllAgree(x)
  }

  lemma OutcomeAgrees(x: World, c: Config, id: string, now: Time, o: Outcome, early: bool)
    requires AgreesOn(x, id) && Amounts(x.relay, c, id, now, o)
    ensures AgreesOn(Noted(x, c, id, o, early), id)
  {
    if |o.relay.journal| > |x.relay.journal| {
      var e := o.relay.journal[|x.relay.journal|];
      Journal.LastAfterRecord(x.relay.journal, id, e.event, e.transition, e.at);
    }
  }

  lemma OutcomeKeepsAgreement(x: World, c: Config, id: string, now: Time, o: Outcome, early: bool)
    requires AllAgree(x) && Amounts(x.relay, c, id, now, o)
    ensures AllAgree(Noted(x, c, id, o, early))
  {
    OutcomeIsConfined(x.relay, c, id, now, o);
    assert AgreesOn(x, id);
    OutcomeAgrees(x, c, id, now, o, early);
    forall other | other != id ensures AgreesOn(Noted(x, c, id, o, early), other) {
      assert AgreesOn(x, other);
    }
  }

  lemma AdmissionAgrees(x: World, c: Config, id: string, event: Event, now: Time, r: Admission)
    requires AllAgree(x) && AdmissionAmounts(x.relay, c, id, event, now, r)
    ensures AllAgree(WithRelay(x, r.relay))
  {
    Journal.LastAfterRecord(x.relay.journal, id, event, Pending, now);
    Journal.LastAfterRecord(Journal.Recorded(x.relay.journal, id, event, Pending, now), id, event, Dead, now);
    assert AgreesOn(x, id);
    forall other ensures AgreesOn(WithRelay(x, r.relay), other) {
      assert AgreesOn(x, other);
    }
  }

  lemma QueueingAgrees(x: World, q: Schedule.Ready)
    requires AllAgree(x)
    ensures AllAgree(WithRelay(x, x.relay.(queue := q)))
  {
    forall id ensures AgreesOn(WithRelay(x, x.relay.(queue := q)), id) {
      assert AgreesOn(x, id);
    }
  }

  lemma PoppedAgrees(x: World, id: string)
    requires AllAgree(x)
    ensures AllAgree(Pop(x, id))
  {
    forall other ensures AgreesOn(Pop(x, id), other) {
      assert AgreesOn(x, other);
    }
  }

  /** Every operation but admission keeps the agreement. */
  lemma OperationAgrees(x: World, c: Config, idOf: string -> string, a: Action)
    requires AllAgree(x) && !a.Submit?
    ensures AllAgree(Exec(x, c, idOf, a))
  {
    match a
    case Step(w, id, now, send, reject) =>
      PoppedAgrees(x, id);
      WorkAmounts(Popped(x.relay, id), c, w, id, now, send, reject, false);
      OutcomeKeepsAgreement(Pop(x, id), c, id, now, Transactions.Step(x.relay, c, w, id, now, send, reject),
                            TooSoon(x.relay, id, now));
    case StepFor(w, id, now, send, reject) =>
      WorkAmounts(x.relay, c, w, id, now, send, reject, true);
      OutcomeKeepsAgreement(x, c, id, now, Transactions.StepFor(x.relay, c, w, id, now, send, reject), false);
    case RetryOverdue(listed, now) => QueueingAgrees(x, Overdue.Requeued(x.relay.queue, c.capacity, listed, now).0);
    case Restart => QueueingAgrees(x, Replayed(x.relay, c.capacity));
  }

  lemma OutcomeConsistent(s: Relay, c: Config, idOf: string -> string, id: string, now: Time, o: Outcome)
    requires Store.Consistent(s.store, idOf) && Amounts(s, c, id, now, o)
    ensures Store.Consistent(o.relay.store, idOf)
  {
    OutcomeIsConfined(s, c, id, now, o);
  }

  lemma OperationConsistent(x: World, c: Config, idOf: string -> string, a: Action)
    requires Store.Consistent(x.relay.store, idOf) && !a.Submit?
    ensures Store.Consistent(Exec(x, c, idOf, a).relay.store, idOf)
  {
    match a
    case Step(w, id, now, send, reject) =>
      WorkAmounts(Popped(x.relay, id), c, w, id, now, send, reject, false);
      OutcomeConsistent(Popped(x.relay, id), c, idOf, id, now, Transactions.Step(x.relay, c, w, id, now, send, reject));
    case StepFor(w, id, now, send, reject) =>
      WorkAmounts(x.relay, c, w, id, now, send, reject, true);
      OutcomeConsistent(x.relay, c, idOf, id, now, Transactions.StepFor(x.relay, c, w, id, now, send, reject));
    case RetryOverdue(_, _) =>
    case Restart =>
  }

  lemma ExecAgrees(x: World, c: Config, idOf: string -> string, a: Action)
    requires Agreement(x, idOf) && Injective(idOf)
    ensures Agreement(Exec(x, c, idOf, a), idOf)
  {
    if a.Submit? {
      SubmitAmounts(x.relay, c, idOf, a.event, a.now, a.reject, a.rejectUndo);
      AdmissionAgrees(x, c, idOf(a.event.key), a.event, a.now,
                      Transactions.Submit(x.relay, c, idOf, a.event, a.now, a.reject, a.rejectUndo));
    } else {
      OperationAgrees(x, c, idOf, a);
      OperationConsistent(x, c, idOf, a);
    }
  }

  lemma {:induction false} AlwaysAgreement(c: Config, idOf: string -> string, actions: seq<Action>)
    requires Injective(idOf)
    ensures Agreement(Run(c, idOf, actions), idOf)
  {
    if actions != [] {
      AlwaysAgreement(c, idOf, actions[..|actions| - 1]);
      ExecAgrees(Run(c, idOf, actions[..|actions| - 1]), c, idOf, actions[|actions| - 1]);
    }
  }

  /** In every run: a delivery still to be made was last journaled Pending; what was last
      journaled Delivered is delivered; what was last journaled Dead is dead or was rolled back;
      and store and journal disagree exactly on the deliveries whose Delivered entry was rejected. */
  lemma JournalAgreesWithStore(c: Config, idOf: string -> string, actions: seq<Action>, id: string)
    requires Injective(idOf)
    ensures var x := Run(c, idOf, actions);
            var d := Lookup(x.relay.store.deliveries, id);
            var last := Journal.Last(x.relay.journal, id);
            && (d.Some? ==> last.Some? && last.value.event == d.value.event)
            && (d.Some? && !d.value.Terminal() ==> last.value.transition == Pending)
            && (last.Some? && last.value.transition == Delivered ==> d.Some? && d.value.state == Delivered)
            && (last.Some? && last.value.transition == Dead ==> d.None? || d.value.state == Dead)
            && (last.Some? ==> last.value.transition != Leased)
            && (d.Some? && d.value.Terminal() && last.value.transition != d.value.state <==> id in x.lost)
            && (id in x.lost ==> d.value.state == Delivered && last.value.transition == Pending)
  {
    AlwaysAgreement(c, idOf, actions);
    assert AgreesOn(Run(c, idOf, actions), id);
  }

  // ---------- Admission over runs ----------

  lemma ReservationLasts(x: World, c: Config, idOf: string -> string, a: Action, key: string)
    requires Agreement(x, idOf) && Injective(idOf) && key in x.relay.store.reserved
    ensures key in Exec(x, c, idOf, a).relay.store.reserved
  {
    match a
    case Submit(event, now, reject, rejectUndo) => SubmitAmounts(x.relay, c, idOf, event, now, reject, rejectUndo);
    case Step(w, id, now, send, reject) => WorkAmounts(Popped(x.relay, id), c, w, id, now, send, reject, false);
    case StepFor(w, id, now, send, reject) => WorkAmounts(x.relay, c, w, id, now, send, reject, true);
    case RetryOverdue(_, _) =>
    case Restart =>
  }

  lemma {:induction false} ReservationsLast(x: World, c: Config, idOf: string -> string, actions: seq<Action>,
                                            key: string)
    requires Agreement(x, idOf) && Injective(idOf) && key in x.relay.store.reserved
    ensures var y := RunFrom(x, c, idOf, actions);
            Agreement(y, idOf) && key in y.relay.store.reserved
  {
    if actions != [] {
      var front, a := actions[..|actions| - 1], actions[|actions| - 1];
      ReservationsLast(x, c, idOf, front, key);
      ExecAgrees(RunFrom(x, c, idOf, front), c, idOf, a);
      ReservationLasts(RunFrom(x, c, idOf, front), c, idOf, a, key);
    }
  }

  /** Once a key is admitted, submitting it again at any later point of any run returns the
      delivery as it then is, creates nothing and leaves the whole relay untouched. */
  lemma AdmittedOnce(c: Config, idOf: string -> string, before: seq<Action>, event: Event, now: Time,
                     after: seq<Action>, again: Event, later: Time, reject: bool, rejectUndo: bool)
    requires Injective(idOf) && again.Valid() && again.key == event.key
    requires Transactions.Submit(Run(c, idOf, before).relay, c, idOf, event, now, false, false).created
    ensures var x := Exec(Run(c, idOf, before), c, idOf, Action.Submit(event, now, false, false));
            var y := RunFrom(x, c, idOf, after).relay;
            && idOf(event.key) in y.store.deliveries
            && y.store.deliveries[idOf(event.key)].event.key == event.key
            && Transactions.Submit(y, c, idOf, again, later, reject, rejectUndo) ==
               Admission(y, Some(y.store.deliveries[idOf(event.key)]), false, None)
  {
    AlwaysAgreement(c, idOf, before);
    var x := Exec(Run(c, idOf, before), c, idOf, Action.Submit(event, now, false, false));
    ExecAgrees(Run(c, idOf, before), c, idOf, Action.Submit(event, now, false, false));
    ReservationsLast(x, c, idOf, after, event.key);
  }

  // ---------- Finished deliveries over runs ----------

  predicate Finished(x: World, id: string) {
    id in x.relay.store.deliveries && x.relay.store.deliveries[id].Terminal()
  }

  lemma FinishedIsRefused(s: Relay, c: Config, w: Worker, id: string, now: Time, send: Option<string>, reject: bool,
                          forced: bool)
    requires id in s.store.deliveries && s.store.deliveries[id].Terminal()
    ensures var o := Work(s, c, w, id, now, send, reject, forced);
            o.fate == Refused && !Sent(o.fate) && o.relay == s
  {
    WorkAmounts(s, c, w, id, now, send, reject, forced);
  }

  lemma StepKeepsFinished(x: World, c: Config, w: Worker, key: string, now: Time, send: Option<string>, reject: bool,
                          forced: bool, id: string)
    requires Finished(x, id)
    ensures Lookup(Work(x.relay, c, w, key, now, send, reject, forced).relay.store.deliveries, id) ==
            Lookup(x.relay.store.deliveries, id)
  {
    if key == id {
      FinishedIsRefused(x.relay, c, w, id, now, send, reject, forced);
    } else {
      WorkAmounts(x.relay, c, w, key, now, send, reject, forced);
    }
  }

  lemma ExecKeepsFinished(x: World, c: Config, idOf: string -> string, a: Action, id: string)
    requires Agreement(x, idOf) && Injective(idOf) && Finished(x, id)
    ensures Lookup(Exec(x, c, idOf, a).relay.store.deliveries, id) == Lookup(x.relay.store.deliveries, id)
  {
    match a
    case Submit(event, now, reject, rejectUndo) => SubmitAmounts(x.relay, c, idOf, event, now, reject, rejectUndo);
    case Step(w, key, now, send, reject) =>
      StepKeepsFinished(Pop(x, key), c, w, key, now, send, reject, false, id);
    case StepFor(w, key, now, send, reject) => StepKeepsFinished(x, c, w, key, now, send, reject, true, id);
    case RetryOverdue(_, _) =>
    case Restart =>
  }

  lemma {:induction false} RunKeepsFinished(x: World, c: Config, idOf: string -> string, actions: seq<Action>,
                                            id: string)
    requires Agreement(x, idOf) && Injective(idOf) && Finished(x, id)
    ensures var y := RunFrom(x, c, idOf, actions);
            Agreement(y, idOf) && Lookup(y.relay.store.deliveries, id) == Lookup(x.relay.store.deliveries, id)
  {
    if actions != [] {
      var front, a := actions[..|actions| - 1], actions[|actions| - 1];
      RunKeepsFinished(x, c, idOf, front, id);
      ExecAgrees(RunFrom(x, c, idOf, front), c, idOf, a);
      ExecKeepsFinished(RunFrom(x, c, idOf, front), c, idOf, a, id);
    }
  }

  /** Once delivered or dead after a whole operation, a delivery stays as it is through the rest of any run, with
      restarts anywhere in it, and no Step or StepFor for it ever reaches the sender again. */
  lemma FinishedIsNeverSent(c: Config, idOf: string -> string, before: seq<Action>, after: seq<Action>, id: string,
                            w: Worker, now: Time, send: Option<string>, reject: bool)
    requires Injective(idOf) && Finished(Run(c, idOf, before), id)
    ensures var y := RunFrom(Run(c, idOf, before), c, idOf, after).relay;
            && Lookup(y.store.deliveries, id) == Lookup(Run(c, idOf, before).relay.store.deliveries, id)
            && !Sent(Transactions.Step(y, c, w, id, now, send, reject).fate)
            && !Sent(Transactions.StepFor(y, c, w, id, now, send, reject).fate)
  {
    AlwaysAgreement(c, idOf, before);
    RunKeepsFinished(Run(c, idOf, before), c, idOf, after, id);
    var y := RunFrom(Run(c, idOf, before), c, idOf, after).relay;
    FinishedIsRefused(Popped(y, id), c, w, id, now, send, reject, false);
    FinishedIsRefused(y, c, w, id, now, send, reject, true);
  }

  // ---------- Circuits at step boundaries ----------

  lemma WorkReturnsProbe(s: Relay, c: Config, w: Worker, id: string, now: Time, send: Option<string>,
                         reject: bool, forced: bool, endpoint: string)
    requires !Breaker.At(s.circuits, endpoint).probe
    ensures !Breaker.At(Work(s, c, w, id, now, send, reject, forced).relay.circuits, endpoint).probe
  {
    match Store.Acquired(s.store, id, w.id, now, w.ttl)
    case Err(_) =>
    case Ok(d) =>
      var leased, asked := WithDelivery(s, id, Ok(d)), d.event.endpoint;
      if Breaker.Admits(Breaker.At(s.circuits, asked), now) {
        var reported := Breaker.Reported(Breaker.Admitted(s.circuits, asked), c.limits, asked, now, send.None?);
        SettlingKeepsCircuits(leased.(circuits := reported), c, w, d, id, now, send, reject, forced);
        assert Work(s, c, w, id, now, send, reject, forced).relay.circuits == reported;
      }
  }

  lemma SettlingKeepsCircuits(s: Relay, c: Config, w: Worker, d: Delivery, id: string, now: Time, send: Option<string>,
                              reject: bool, forced: bool)
    ensures Settled(s, c, w, d, id, now, send, reject, forced).relay.circuits == s.circuits
  {
  }

  lemma {:induction false} NoProbeBetweenSteps(c: Config, idOf: string -> string, actions: seq<Action>,
                                               endpoint: string)
    ensures !Breaker.At(Run(c, idOf, actions).relay.circuits, endpoint).probe
  {
    if actions != [] {
      var front, a := actions[..|actions| - 1], actions[|actions| - 1];
      NoProbeBetweenSteps(c, idOf, front, endpoint);
      var s := Run(c, idOf, front).relay;
      match a
      case Submit(_, _, _, _) =>
      case Step(w, id, now, send, reject) =>
        WorkReturnsProbe(Popped(s, id), c, w, id, now, send, reject, false, endpoint);
      case StepFor(w, id, now, send, reject) => WorkReturnsProbe(s, c, w, id, now, send, reject, true, endpoint);
      case RetryOverdue(_, _) =>
      case Restart =>
    }
  }

  /** In runs of whole steps a circuit refuses a call exactly while it is open: once the
      cooldown is over the next call is always admitted. */
  lemma CooledCircuitAdmits(c: Config, idOf: string -> string, actions: seq<Action>, endpoint: string, now: Time)
    ensures var circuit := Breaker.At(Run(c, idOf, actions).relay.circuits, endpoint);
            Breaker.Admits(circuit, now) <==> !After(circuit.openUntil, now)
  {
    NoProbeBetweenSteps(c, idOf, actions, endpoint);
  }

  // ---------- Queue coverage ----------

  /** No lease is held, and exactly the pending deliveries that were not stranded are queued,
      each at its NextAttempt. */
  predicate CoveredOn(x: World, id: string) {
    match Lookup(x.relay.store.deliveries, id)
    case None => id !in x.relay.queue && id !in x.stranded
    case Some(d) =>
      && d.state != Leased
      && (d.state == Pending ==>
            Lookup(x.relay.queue, id) == if id in x.stranded then None else Some(d.nextAttempt))
      && (d.state != Pending ==> id !in x.relay.queue && id !in x.stranded)
  }

  /** The operations that keep the queue in step with the store: StepFor may leave a lease standing, and a
      replay queues what the journal says. */
  predicate Covering(a: Action) {
    !a.StepFor? && !a.Restart?
  }

  predicate Sized(x: World, c: Config) {
    |x.relay.queue| <= c.capacity || x.relay.queue == map[]
  }

  /** Every delivery is stored under its own id. */
  ghost predicate OwnIds(s: Store.State) {
    forall id | id in s.deliveries :: s.deliveries[id].id == id
  }

  ghost predicate Covers(x: World, c: Config) {
    OwnIds(x.relay.store) && Sized(x, c) && forall id :: CoveredOn(x, id)
  }

  ghost predicate Coverage(x: World, c: Config, idOf: string -> string) {
    Agreement(x, idOf) && Covers(x, c)
  }

  /** A due delivery, once popped, is leased and settled, and its slot is still free. */
  lemma OutcomeCovers(x: World, c: Config, id: string, now: Time, o: Outcome)
    requires Covers(x, c) && Schedule.IsNext(x.relay.queue, now, id)
    requires Amounts(Popped(x.relay, id), c, id, now, o) && o.fate != Refused && o.fate != Abandoned
    ensures CoveredOn(Noted(Pop(x, id), c, id, o, false), id) && o.err != Some(QueueFull)
    ensures Sized(Noted(Pop(x, id), c, id, o, false), c)
  {
    assert CoveredOn(x, id);
    var popped := x.relay.queue - {id};
    var t := o.relay.store.deliveries[id].nextAttempt;
    assert popped.Keys == x.relay.queue.Keys - {id};
    assert popped[id := t].Keys == x.relay.queue.Keys;
  }

  lemma DueIsNotRefused(x: World, c: Config, w: Worker, id: string, now: Time, send: Option<string>, reject: bool)
    requires Covers(x, c) && Schedule.IsNext(x.relay.queue, now, id)
    ensures var o := Transactions.Step(x.relay, c, w, id, now, send, reject);
            o.fate != Refused && o.fate != Abandoned && Amounts(Popped(x.relay, id), c, id, now, o)
    ensures !TooSoon(x.relay, id, now)
  {
    assert CoveredOn(x, id);
    WorkAmounts(Popped(x.relay, id), c, w, id, now, send, reject, false);
  }

  lemma AdmissionCovers(x: World, c: Config, key: string, event: Event, now: Time, r: Admission, id: string)
    requires Covers(x, c) && AdmissionAmounts(x.relay, c, key, event, now, r)
    ensures CoveredOn(WithRelay(x, r.relay), id) && Sized(WithRelay(x, r.relay), c)
  {
    assert CoveredOn(x, id) && CoveredOn(x, key);
    Overdue.ScheduledSize(x.relay.queue, key, now);
  }

  lemma RetryOverdueSized(x: World, c: Config, listed: seq<Delivery>, now: Time)
    requires Sized(x, c) && ListsPending(x.relay.store, listed)
    ensures var q := Overdue.Requeued(x.relay.queue, c.capacity, listed, now).0;
            |q| <= c.capacity || q == map[]
  {
    Overdue.RequeuedKeys(x.relay.queue, c.capacity, listed, now);
    Overdue.RequeuedCount(x.relay.queue, c.capacity, listed, now);
  }

  lemma RetryOverdueCovers(x: World, c: Config, listed: seq<Delivery>, now: Time, id: string)
    requires Covers(x, c) && ListsPending(x.relay.store, listed)
    ensures var q := Overdue.Requeued(x.relay.queue, c.capacity, listed, now).0;
            CoveredOn(WithRelay(x, x.relay.(queue := q)), id)
  {
    var q := x.relay.queue;
    var q' := Overdue.Requeued(q, c.capacity, listed, now).0;
    assert CoveredOn(x, id);
    Overdue.RequeuedKeys(q, c.capacity, listed, now);
    if id in q' {
      Overdue.RequeuedReady(q, c.capacity, listed, now, id);
    }
  }

  lemma StepCovers(x: World, c: Config, idOf: string -> string, w: Worker, next: string, now: Time,
                   send: Option<string>, reject: bool)
    requires Covers(x, c) && Schedule.IsNext(x.relay.queue, now, next)
    ensures Covers(Exec(x, c, idOf, Action.Step(w, next, now, send, reject)), c)
  {
    var o := Transactions.Step(x.relay, c, w, next, now, send, reject);
    var y := Exec(x, c, idOf, Action.Step(w, next, now, send, reject));
    DueIsNotRefused(x, c, w, next, now, send, reject);
    OutcomeCovers(x, c, next, now, o);
    OutcomeIsConfined(Popped(x.relay, next), c, next, now, o);
    forall id | id != next ensures CoveredOn(y, id) { assert CoveredOn(x, id); }
  }

  /** Every covering operation but admission keeps the coverage. */
  lemma OperationCovers(x: World, c: Config, idOf: string -> string, a: Action)
    requires Covers(x, c) && Covering(a) && !a.Submit?
    ensures Covers(Exec(x, c, idOf, a), c)
  {
    if a.Step? {
      if Schedule.IsNext(x.relay.queue, a.now, a.id) {
        StepCovers(x, c, idOf, a.worker, a.id, a.now, a.send, a.reject);
      }
    } else if ListsPending(x.relay.store, a.listed) {
      RetryOverdueSized(x, c, a.listed, a.now);
      forall id ensures CoveredOn(Exec(x, c, idOf, a), id) { RetryOverdueCovers(x, c, a.listed, a.now, id); }
    }
  }

  lemma ExecCovers(x: World, c: Config, idOf: string -> string, a: Action)
    requires Coverage(x, c, idOf) && Injective(idOf) && Covering(a)
    ensures Coverage(Exec(x, c, idOf, a), c, idOf)
  {
    ExecAgrees(x, c, idOf, a);
    if a.Submit? {
      var r := Transactions.Submit(x.relay, c, idOf, a.event, a.now, a.reject, a.rejectUndo);
      SubmitAmounts(x.relay, c, idOf, a.event, a.now, a.reject, a.rejectUndo);
      AdmissionCovers(x, c, idOf(a.event.key), a.event, a.now, r, "");
      forall id ensures CoveredOn(Exec(x, c, idOf, a), id) {
        AdmissionCovers(x, c, idOf(a.event.key), a.event, a.now, r, id);
      }
    } else {
      OperationCovers(x, c, idOf, a);
    }
  }

  lemma {:induction false} AlwaysCoverage(c: Config, idOf: string -> string, actions: seq<Action>)
    requires Injective(idOf) && forall a | a in actions :: Covering(a)
    ensures Coverage(Run(c, idOf, actions), c, idOf)
  {
    if actions != [] {
      var front, a := actions[..|actions| - 1], actions[|actions| - 1];
      AlwaysCoverage(c, idOf, front);
      ExecCovers(Run(c, idOf, front), c, idOf, a);
    }
  }

  /** In every run of Submit, Step and RetryOverdue no delivery is left leased, and the queue
      is exactly the pending deliveries at their NextAttempt, save those a rejected Pending
      entry stranded and no RetryOverdue has picked up since. */
  lemma QueueCoversPending(c: Config, idOf: string -> string, actions: seq<Action>)
    requires Injective(idOf) && forall a | a in actions :: Covering(a)
    ensures var x := Run(c, idOf, actions);
            x.relay.queue == PendingUnstranded(x.relay.store.deliveries, x.stranded)
    ensures var x := Run(c, idOf, actions);
            forall id | id in x.relay.store.deliveries :: x.relay.store.deliveries[id].state != Leased
    ensures var x := Run(c, idOf, actions);
            forall id | id in x.stranded ::
              id in x.relay.store.deliveries && x.relay.store.deliveries[id].state == Pending
  {
    AlwaysCoverage(c, idOf, actions);
    CoverageIsExact(Run(c, idOf, actions), c);
  }

  function PendingUnstranded(ds: map<string, Delivery>, stranded: set<string>): Schedule.Ready {
    map id | id in ds && ds[id].state == Pending && id !in stranded :: ds[id].nextAttempt
  }

  lemma CoverageIsExact(x: World, c: Config)
    requires Covers(x, c)
    ensures x.relay.queue == PendingUnstranded(x.relay.store.deliveries, x.stranded)
    ensures forall id | id in x.relay.store.deliveries :: x.relay.store.deliveries[id].state != Leased
    ensures forall id | id in x.stranded ::
              id in x.relay.store.deliveries && x.relay.store.deliveries[id].state == Pending
  {
    var q, p := x.relay.queue, PendingUnstranded(x.relay.store.deliveries, x.stranded);
    forall id ensures id in q <==> id in p {
      assert CoveredOn(x, id);
    }
    forall id | id in q ensures q[id] == p[id] {
      assert CoveredOn(x, id);
    }
    forall id | id in x.relay.store.deliveries || id in x.stranded
      ensures id in x.relay.store.deliveries && x.relay.store.deliveries[id].state != Leased
      ensures id in x.stranded ==> x.relay.store.deliveries[id].state == Pending
    {
      assert CoveredOn(x, id);
    }
  }

  /** In such runs a step that pops a delivery leases it, settles it, and is never refused a
      queue slot for it. */
  lemma StepAlwaysProceeds(c: Config, idOf: string -> string, actions: seq<Action>, w: Worker, id: string, now: Time,
                           send: Option<string>, reject: bool)
    requires Injective(idOf) && forall a | a in actions :: Covering(a)
    ensures var s := Run(c, idOf, actions).relay;
            var o := Transactions.Step(s, c, w, id, now, send, reject);
            Schedule.IsNext(s.queue, now, id) ==>
              && o.fate != Refused && o.fate != Conflicted && o.err != Some(QueueFull)
              && (o.relay.store.deliveries[id].state == Pending ==>
                    Lookup(o.relay.queue, id) ==
                    if o.fate == Stranded then None else Some(o.relay.store.deliveries[id].nextAttempt))
  {
    AlwaysCoverage(c, idOf, actions);
    var x := Run(c, idOf, actions);
    if Schedule.IsNext(x.relay.queue, now, id) {
      DueIsNotRefused(x, c, w, id, now, send, reject);
      OutcomeCovers(x, c, id, now, Transactions.Step(x.relay, c, w, id, now, send, reject));
      assert CoveredOn(x, id);
    }
  }
}
