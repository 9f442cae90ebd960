/** What the queue still covers after a restart, StepFor included. */
module RestartRuns {
  import opened Core
  import Journal
  import Schedule
  import Overdue
  import Replaying
  import Recovery
  import opened Transactions
  import opened AtomicRuns

  /** A pending delivery is queued no later than its NextAttempt, or it is one of those left out, and those are
      not queued. */
  predicate WithinReach(x: World, id: string) {
    && (id in x.stranded || id in x.early ==> id !in x.relay.queue)
    && (id in x.relay.store.deliveries && x.relay.store.deliveries[id].state == Pending
        && id !in x.stranded && id !in x.early ==>
          id in x.relay.queue && x.relay.queue[id] <= x.relay.store.deliveries[id].nextAttempt)
  }

  ghost predicate Reaching(x: World, c: Config) {
    OwnIds(x.relay.store) && Sized(x, c) && forall id :: WithinReach(x, id)
  }

  // ---------- The restart ----------

  lemma {:induction false} ReplayedIsSized(q: Schedule.Ready, capacity: int, entries: seq<Journal.Entry>)
    requires |q| <= capacity || q == map[]
    ensures var p := Replaying.Replayed(q, capacity, entries).queue;
            |p| <= capacity || p == map[]
    decreases |entries|
  {
    if entries != [] {
      var e := entries[0];
      if e.transition == Pending {
        Overdue.ScheduledSize(q, e.delivery, e.at);
        var r := Schedule.Scheduled(q, capacity, e.delivery, e.at);
        if r.Ok? {
          ReplayedIsSized(r.value, capacity, entries[1..]);
        }
      } else {
        ReplayedIsSized(q, capacity, entries[1..]);
      }
    }
  }

  lemma RestartReaches(c: Config, idOf: string -> string, before: seq<Action>)
    requires Injective(idOf)
    requires |Replaying.PendingIds(Run(c, idOf, before).relay.journal)| <= c.capacity
    ensures var x := Exec(Run(c, idOf, before), c, idOf, Restart);
            Agreement(x, idOf) && Reaching(x, c)
  {
    var x := Run(c, idOf, before);
    var y := Exec(x, c, idOf, Restart);
    AlwaysAgreement(c, idOf, before);
    ExecAgrees(x, c, idOf, Restart);
    ReplayedIsSized(map[], c.capacity, x.relay.journal);
    forall id ensures WithinReach(y, id) {
      Recovery.RecoveryCoversUnfinished(c, idOf, before, c.capacity, id);
    }
  }

  // ---------- What every later operation keeps ----------

  lemma OutcomeReaches(x: World, c: Config, id: string, now: Time, o: Outcome, early: bool)
    requires Amounts(x.relay, c, id, now, o) && o.fate != Refused
    requires id in x.stranded || id in x.early || o.fate == Stranded ==> id !in x.relay.queue
    ensures WithinReach(Noted(x, c, id, o, early), id)
  {
  }

  lemma OutcomeSized(x: World, c: Config, id: string, now: Time, o: Outcome, early: bool)
    requires Amounts(x.relay, c, id, now, o) && Sized(x, c)
    ensures Sized(Noted(x, c, id, o, early), c)
  {
    if o.fate != Refused {
      Overdue.ScheduledSize(x.relay.queue, id, o.relay.store.deliveries[id].nextAttempt);
    }
  }

  lemma OthersStayInReach(x: World, c: Config, id: string, now: Time, o: Outcome, early: bool, other: string)
    requires Amounts(x.relay, c, id, now, o) && other != id && WithinReach(x, other)
    ensures WithinReach(Noted(x, c, id, o, early), other)
  {
    OutcomeIsConfined(x.relay, c, id, now, o);
  }

  lemma OutcomeOwnIds(x: World, c: Config, id: string, now: Time, o: Outcome)
    requires Amounts(x.relay, c, id, now, o) && OwnIds(x.relay.store)
    ensures OwnIds(o.relay.store)
  {
    OutcomeIsConfined(x.relay, c, id, now, o);
  }

  /** A step that goes ahead queues the delivery again or notes that it did not; one that is refused forgets a
      pending delivery only when it popped it too soon. */
  lemma StepReaches(x: World, c: Config, idOf: string -> string, w: Worker, id: string, now: Time,
                    send: Option<string>, reject: bool)
    requires Reaching(x, c) && Schedule.IsNext(x.relay.queue, now, id)
    ensures Reaching(Exec(x, c, idOf, Action.Step(w, id, now, send, reject)), c)
  {
    var popped, early := Pop(x, id), TooSoon(x.relay, id, now);
    var o := Transactions.Step(x.relay, c, w, id, now, send, reject);
    var y := Noted(popped, c, id, o, early);
    WorkAmounts(popped.relay, c, w, id, now, send, reject, false);
    assert popped.relay.queue.Keys == x.relay.queue.Keys - {id};
    assert Sized(popped, c);
    OutcomeSized(popped, c, id, now, o, early);
    OutcomeOwnIds(popped, c, id, now, o);
    forall other ensures WithinReach(y, other) {
      assert WithinReach(x, other);
      if other != id {
        OthersStayInReach(popped, c, id, now, o, early, other);
      } else if o.fate != Refused {
        OutcomeReaches(popped, c, id, now, o, early);
      } else {
        RefusedStep(x, c, w, id, now, send, reject);
      }
    }
  }

  lemma RefusedStep(x: World, c: Config, w: Worker, id: string, now: Time, send: Option<string>, reject: bool)
    requires Transactions.Step(x.relay, c, w, id, now, send, reject).fate == Refused
    ensures id in x.relay.store.deliveries && x.relay.store.deliveries[id].state == Pending ==>
            TooSoon(x.relay, id, now)
  {
    Recovery.StepGoesAhead(x.relay, c, w, id, now, send, reject);
  }

  lemma StepForReaches(x: World, c: Config, idOf: string -> string, w: Worker, id: string, now: Time,
                       send: Option<string>, reject: bool)
    requires Reaching(x, c)
    ensures Reaching(Exec(x, c, idOf, Action.StepFor(w, id, now, send, reject)), c)
  {
    var o := Transactions.StepFor(x.relay, c, w, id, now, send, reject);
    WorkAmounts(x.relay, c, w, id, now, send, reject, true);
    ForcedFate(x.relay, c, w, id, now, send, reject);
    OutcomeSized(x, c, id, now, o, false);
    OutcomeOwnIds(x, c, id, now, o);
    forall other ensures WithinReach(Noted(x, c, id, o, false), other) {
      assert WithinReach(x, other);
      if other != id {
        OthersStayInReach(x, c, id, now, o, false, other);
      } else if o.fate != Refused {
        OutcomeReaches(x, c, id, now, o, false);
      }
    }
  }

  lemma SubmitReaches(x: World, c: Config, idOf: string -> string, event: Event, now: Time, reject: bool,
                      rejectUndo: bool)
    requires Agreement(x, idOf) && Injective(idOf) && Reaching(x, c)
    ensures Reaching(Exec(x, c, idOf, Action.Submit(event, now, reject, rejectUndo)), c)
  {
    SubmitAmounts(x.relay, c, idOf, event, now, reject, rejectUndo);
    Overdue.ScheduledSize(x.relay.queue, idOf(event.key), now);
    forall id ensures WithinReach(Exec(x, c, idOf, Action.Submit(event, now, reject, rejectUndo)), id) {
      assert WithinReach(x, id);
    }
  }

  lemma SweepReaches(x: World, c: Config, idOf: string -> string, listed: seq<Delivery>, now: Time)
    requires Reaching(x, c) && ListsPending(x.relay.store, listed)
    ensures Reaching(Exec(x, c, idOf, Action.RetryOverdue(listed, now)), c)
  {
    var q := x.relay.queue;
    var q' := Overdue.Requeued(q, c.capacity, listed, now).0;
    RetryOverdueSized(x, c, listed, now);
    Overdue.RequeuedKeys(q, c.capacity, listed, now);
    forall id ensures WithinReach(Exec(x, c, idOf, Action.RetryOverdue(listed, now)), id) {
      assert WithinReach(x, id);
      if id in q' {
        Overdue.RequeuedReady(q, c.capacity, listed, now, id);
      }
    }
  }

  lemma ExecReaches(x: World, c: Config, idOf: string -> string, a: Action)
    requires Agreement(x, idOf) && Injective(idOf) && Reaching(x, c) && !a.Restart?
    ensures Reaching(Exec(x, c, idOf, a), c)
  {
    if a.Submit? {
      SubmitReaches(x, c, idOf, a.event, a.now, a.reject, a.rejectUndo);
    } else if a.StepFor? {
      StepForReaches(x, c, idOf, a.worker, a.id, a.now, a.send, a.reject);
    } else if a.Step? && Schedule.IsNext(x.relay.queue, a.now, a.id) {
      StepReaches(x, c, idOf, a.worker, a.id, a.now, a.send, a.reject);
    } else if a.RetryOverdue? && ListsPending(x.relay.store, a.listed) {
      SweepReaches(x, c, idOf, a.listed, a.now);
    }
  }

  lemma {:induction false} RunReaches(x: World, c: Config, idOf: string -> string, actions: seq<Action>)
    requires Agreement(x, idOf) && Injective(idOf) && Reaching(x, c) && forall a | a in actions :: !a.Restart?
    ensures var y := RunFrom(x, c, idOf, actions);
            Agreement(y, idOf) && Reaching(y, c)
  {
    if actions != [] {
      var front, a := actions[..|actions| - 1], actions[|actions| - 1];
      RunReaches(x, c, idOf, front);
      ExecAgrees(RunFrom(x, c, idOf, front), c, idOf, a);
      ExecReaches(RunFrom(x, c, idOf, front), c, idOf, a);
    }
  }

  /** After a restart with room for every delivery ever journaled Pending, at every later point up to the next
      restart, whatever happens in between: a pending delivery is queued, no later than its NextAttempt, exactly
      when it is not one that a rejected entry or a full queue left out or that a step popped too soon. */
  lemma RestartCoversPending(c: Config, idOf: string -> string, before: seq<Action>, after: seq<Action>, id: string)
    requires Injective(idOf) && forall a | a in after :: !a.Restart?
    requires |Replaying.PendingIds(Run(c, idOf, before).relay.journal)| <= c.capacity
    ensures var y := RunFrom(Exec(Run(c, idOf, before), c, idOf, Restart), c, idOf, after);
            id in y.relay.store.deliveries && y.relay.store.deliveries[id].state == Pending ==>
              && (id in y.relay.queue <==> id !in y.stranded && id !in y.early)
              && (id in y.relay.queue ==> y.relay.queue[id] <= y.relay.store.deliveries[id].nextAttempt)
  {
    RestartReaches(c, idOf, before);
    RunReaches(Exec(Run(c, idOf, before), c, idOf, Restart), c, idOf, after);
    assert WithinReach(RunFrom(Exec(Run(c, idOf, before), c, idOf, Restart), c, idOf, after), id);
  }
}
