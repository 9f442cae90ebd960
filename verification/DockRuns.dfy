/** Runs in which deliveries are admitted by the orchestration service and made by relay workers, on one store,
    journal and queue. */
module DockRuns {
  import opened Core
  import Store
  import Journal
  import Schedule
  import Batches
  import Dock
  import opened Transactions
  import AtomicRuns

  /** A Submit of the orchestration service, or any operation of a worker, a sweep or a restart. The batch
      window may hold anything: what it holds does not touch the relay. */
  datatype Action =
    | Submit(id: string, event: Event, now: Time, reject: bool, head: Option<string>, window: Batches.Items, room: int)
    | Operate(operation: AtomicRuns.Action)

  function Submitted(s: Relay, c: Config, a: Action): Relay
    requires a.Submit?
  {
    Dock.DockSubmit(Dock.Docked(s, a.window), c, a.room, a.id, a.event, a.now, a.reject, a.head).state.relay
  }

  /** The journal rejects a new key, so the head of the queue goes. */
  predicate Drops(s: Relay, a: Action)
    requires a.Submit?
  {
    a.event.Valid() && a.event.key !in s.store.reserved && a.reject && a.head.Some?
  }

  /** One transition. A dropped delivery is left unqueued, as a stranded one is. A Submit does not happen with a
      `head` that PopReady would not return. */
  function Exec(x: AtomicRuns.World, c: Config, a: Action): AtomicRuns.World {
    match a
    case Submit(_, _, now, _, head, _, _) =>
      if !Dock.IsHead(x.relay.queue, now, head) then x
      else
        var dropped := if Drops(x.relay, a) then {head.value} else {};
        AtomicRuns.WithRelay(x.(stranded := x.stranded + dropped), Submitted(x.relay, c, a))
    case Operate(operation) =>
      if operation.Submit? then x else AtomicRuns.Exec(x, c, key => key, operation)
  }

  function Run(c: Config, actions: seq<Action>): AtomicRuns.World {
    if actions == [] then AtomicRuns.START
    else Exec(Run(c, actions[..|actions| - 1]), c, actions[|actions| - 1])
  }

  /** No id is given to two keys. */
  predicate NamesKey(keyOf: string -> string, a: Action) {
    a.Submit? ==> keyOf(a.id) == a.event.key
  }

  /** A delivery is stored under its own id, which is reserved for its key. A key may be reserved for nothing. */
  ghost predicate Kept(s: Store.State, keyOf: string -> string) {
    forall id | id in s.deliveries ::
      && s.deliveries[id].id == id && keyOf(id) == s.deliveries[id].event.key
      && Lookup(s.reserved, s.deliveries[id].event.key) == Some(id)
  }

  // ---------- Admission ----------

  /** A rejected entry: the key is reserved, and that and the queue's head are all that changes. */
  lemma RejectionAmounts(s: Relay, c: Config, a: Action)
    requires a.Submit? && a.event.Valid() && a.event.key !in s.store.reserved && a.reject && a.id !in s.store.deliveries
    ensures Submitted(s, c, a) ==
            s.(store := s.store.(reserved := s.store.reserved[a.event.key := a.id]),
               queue := Dock.Behead(s.queue, a.head))
  {
    assert s.store.deliveries[a.id := Delivery(a.id, a.event, Pending, 0, a.now, "", 0, None, "")] - {a.id} ==
           s.store.deliveries;
  }

  /** The other Submits are admissions as the relay's own service makes them. */
  function AsAdmission(s: Relay, c: Config, a: Action): Admission
    requires a.Submit?
  {
    var r := Submitted(s, c, a);
    var created := a.id in r.store.deliveries && a.id !in s.store.deliveries;
    if created then Admission(r, Lookup(r.store.deliveries, a.id), true, None)
    else
      Admission(r, None, false,
                if a.event.key in s.store.reserved then None
                else if a.event.Valid() then Some(QueueFull)
                else Some(InvalidState))
  }

  lemma AcceptanceAmounts(s: Relay, c: Config, a: Action)
    requires a.Submit? && !(a.event.Valid() && a.event.key !in s.store.reserved && a.reject)
    requires a.event.key !in s.store.reserved ==> a.id !in s.store.deliveries
    ensures AdmissionAmounts(s, c, a.id, a.event, a.now, AsAdmission(s, c, a))
  {
    if a.event.Valid() && a.event.key !in s.store.reserved {
      Store.RollbackUndoesReserve(s.store, a.event, a.id, a.now);
    }
  }

  lemma FreshId(s: Store.State, keyOf: string -> string, a: Action)
    requires Kept(s, keyOf) && a.Submit? && NamesKey(keyOf, a)
    ensures a.event.key !in s.reserved ==> a.id !in s.deliveries
  {
  }

  lemma SubmitKeeps(x: AtomicRuns.World, c: Config, keyOf: string -> string, a: Action)
    requires Kept(x.relay.store, keyOf) && a.Submit? && NamesKey(keyOf, a)
    ensures Kept(Submitted(x.relay, c, a).store, keyOf)
  {
    FreshId(x.relay.store, keyOf, a);
    if a.event.Valid() && a.event.key !in x.relay.store.reserved {
      if a.reject {
        RejectionAmounts(x.relay, c, a);
      } else {
        AcceptanceAmounts(x.relay, c, a);
      }
    }
  }

  lemma OperationKeeps(x: AtomicRuns.World, c: Config, keyOf: string -> string, operation: AtomicRuns.Action)
    requires Kept(x.relay.store, keyOf) && !operation.Submit?
    ensures Kept(AtomicRuns.Exec(x, c, key => key, operation).relay.store, keyOf)
  {
    match operation
    case Step(w, id, now, send, reject) =>
      WorkAmounts(Popped(x.relay, id), c, w, id, now, send, reject, false);
      OutcomeKeeps(Popped(x.relay, id), c, keyOf, id, now, Transactions.Step(x.relay, c, w, id, now, send, reject));
    case StepFor(w, id, now, send, reject) =>
      WorkAmounts(x.relay, c, w, id, now, send, reject, true);
      OutcomeKeeps(x.relay, c, keyOf, id, now, Transactions.StepFor(x.relay, c, w, id, now, send, reject));
    case RetryOverdue(_, _) =>
    case Restart =>
  }

  lemma OutcomeKeeps(s: Relay, c: Config, keyOf: string -> string, id: string, now: Time, o: Outcome)
    requires Kept(s.store, keyOf) && Amounts(s, c, id, now, o)
    ensures Kept(o.relay.store, keyOf)
  {
    AtomicRuns.OutcomeIsConfined(s, c, id, now, o);
  }

  // ---------- Agreement ----------

  ghost predicate Agreement(x: AtomicRuns.World, keyOf: string -> string) {
    Kept(x.relay.store, keyOf) && AtomicRuns.AllAgree(x)
  }

  lemma SubmitAgrees(x: AtomicRuns.World, c: Config, keyOf: string -> string, a: Action)
    requires Agreement(x, keyOf) && a.Submit? && NamesKey(keyOf, a)
    ensures Agreement(Exec(x, c, a), keyOf)
  {
    FreshId(x.relay.store, keyOf, a);
    SubmitKeeps(x, c, keyOf, a);
    var y := Exec(x, c, a);
    if a.event.Valid() && a.event.key !in x.relay.store.reserved && a.reject {
      RejectionAmounts(x.relay, c, a);
      forall id ensures AtomicRuns.AgreesOn(y, id) { assert AtomicRuns.AgreesOn(x, id); }
    } else {
      AcceptanceAmounts(x.relay, c, a);
      AtomicRuns.AdmissionAgrees(x, c, a.id, a.event, a.now, AsAdmission(x.relay, c, a));
      forall id ensures AtomicRuns.AgreesOn(y, id) {
        assert AtomicRuns.AgreesOn(x, id);
        assert AtomicRuns.AgreesOn(AtomicRuns.WithRelay(x, AsAdmission(x.relay, c, a).relay), id);
      }
    }
  }

  lemma ExecAgrees(x: AtomicRuns.World, c: Config, keyOf: string -> string, a: Action)
    requires Agreement(x, keyOf) && NamesKey(keyOf, a)
    ensures Agreement(Exec(x, c, a), keyOf)
  {
    if a.Submit? {
      SubmitAgrees(x, c, keyOf, a);
    } else if !a.operation.Submit? {
      AtomicRuns.OperationAgrees(x, c, key => key, a.operation);
      OperationKeeps(x, c, keyOf, a.operation);
    }
  }

  lemma {:induction false} AlwaysAgreement(c: Config, keyOf: string -> string, actions: seq<Action>)
    requires forall a | a in actions :: NamesKey(keyOf, a)
    ensures Agreement(Run(c, actions), keyOf)
  {
    if actions != [] {
      var front, a := actions[..|actions| - 1], actions[|actions| - 1];
      AlwaysAgreement(c, keyOf, front);
      ExecAgrees(Run(c, front), c, keyOf, a);
    }
  }

  /** In every such run, as under the relay's own admission: store and journal differ exactly on the deliveries
      whose Delivered entry was rejected. */
  lemma JournalAgreesWithStore(c: Config, keyOf: string -> string, actions: seq<Action>, id: string)
    requires forall a | a in actions :: NamesKey(keyOf, a)
    ensures var x := Run(c, actions);
            AtomicRuns.Agrees(Lookup(x.relay.store.deliveries, id), Journal.Last(x.relay.journal, id), id in x.lost)
  {
    AlwaysAgreement(c, keyOf, actions);
    assert AtomicRuns.AgreesOn(Run(c, actions), id);
  }

  // ---------- Coverage ----------

  lemma SubmitCovers(x: AtomicRuns.World, c: Config, keyOf: string -> string, a: Action)
    requires Kept(x.relay.store, keyOf) && AtomicRuns.Covers(x, c) && a.Submit? && NamesKey(keyOf, a)
    ensures AtomicRuns.Covers(Exec(x, c, a), c)
  {
    FreshId(x.relay.store, keyOf, a);
    SubmitKeeps(x, c, keyOf, a);
    if Dock.IsHead(x.relay.queue, a.now, a.head) {
      if a.event.Valid() && a.event.key !in x.relay.store.reserved && a.reject {
        RejectionCovers(x, c, a);
      } else {
        AcceptanceCovers(x, c, a);
      }
    }
  }

  lemma RejectionCovers(x: AtomicRuns.World, c: Config, a: Action)
    requires AtomicRuns.Covers(x, c) && a.Submit? && Dock.IsHead(x.relay.queue, a.now, a.head)
    requires a.event.Valid() && a.event.key !in x.relay.store.reserved && a.reject && a.id !in x.relay.store.deliveries
    ensures AtomicRuns.Covers(Exec(x, c, a), c)
  {
    RejectionAmounts(x.relay, c, a);
    var y := Exec(x, c, a);
    assert y.relay.queue.Keys <= x.relay.queue.Keys;
    Fewer(y.relay.queue, x.relay.queue);
    forall id ensures AtomicRuns.CoveredOn(y, id) { assert AtomicRuns.CoveredOn(x, id); }
  }

  lemma Fewer(q: Schedule.Ready, p: Schedule.Ready)
    requires q.Keys <= p.Keys
    ensures |q| <= |p|
  {
    SubsetSize(q.Keys, p.Keys);
    assert |q| == |q.Keys| && |p| == |p.Keys|;
  }

  lemma AcceptanceCovers(x: AtomicRuns.World, c: Config, a: Action)
    requires AtomicRuns.Covers(x, c) && a.Submit? && Dock.IsHead(x.relay.queue, a.now, a.head)
    requires !(a.event.Valid() && a.event.key !in x.relay.store.reserved && a.reject)
    requires a.event.key !in x.relay.store.reserved ==> a.id !in x.relay.store.deliveries
    requires AtomicRuns.OwnIds(Submitted(x.relay, c, a).store)
    ensures AtomicRuns.Covers(Exec(x, c, a), c)
  {
    AcceptanceAmounts(x.relay, c, a);
    var y, r := Exec(x, c, a), AsAdmission(x.relay, c, a);
    assert y == AtomicRuns.WithRelay(x, r.relay);
    AtomicRuns.AdmissionCovers(x, c, a.id, a.event, a.now, r, "");
    forall id ensures AtomicRuns.CoveredOn(y, id) { AtomicRuns.AdmissionCovers(x, c, a.id, a.event, a.now, r, id); }
  }

  lemma {:induction false} AlwaysCovers(c: Config, keyOf: string -> string, actions: seq<Action>)
    requires forall a | a in actions :: NamesKey(keyOf, a) && (a.Operate? ==> AtomicRuns.Covering(a.operation))
    ensures Agreement(Run(c, actions), keyOf) && AtomicRuns.Covers(Run(c, actions), c)
  {
    if actions != [] {
      var front, a := actions[..|actions| - 1], actions[|actions| - 1];
      AlwaysCovers(c, keyOf, front);
      ExecAgrees(Run(c, front), c, keyOf, a);
      if a.Submit? {
        SubmitCovers(Run(c, front), c, keyOf, a);
      } else if !a.operation.Submit? {
        AtomicRuns.OperationCovers(Run(c, front), c, key => key, a.operation);
      }
    }
  }

  /** In every run of Submit, Step and RetryOverdue nothing stays leased, and the queue is exactly the pending
      deliveries at their NextAttempt, save those that a rejected retry entry stranded or a rejected Submit of
      another key dropped, and that no sweep has picked up since. */
  lemma QueueCoversPending(c: Config, keyOf: string -> string, actions: seq<Action>)
    requires forall a | a in actions :: NamesKey(keyOf, a) && (a.Operate? ==> AtomicRuns.Covering(a.operation))
    ensures var x := Run(c, actions);
            && x.relay.queue == AtomicRuns.PendingUnstranded(x.relay.store.deliveries, x.stranded)
            && (forall id | id in x.relay.store.deliveries :: x.relay.store.deliveries[id].state != Leased)
            && forall id | id in x.stranded ::
                 id in x.relay.store.deliveries && x.relay.store.deliveries[id].state == Pending
  {
    AlwaysCovers(c, keyOf, actions);
    AtomicRuns.CoverageIsExact(Run(c, actions), c);
  }
}
