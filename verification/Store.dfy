/** The delivery store: idempotency reservations and fenced leases. */
module Store {
  import opened Core

  datatype State = State(deliveries: map<string, Delivery>, reserved: map<string, string>)

  const EMPTY := State(map[], map[])

  /** What a lease operation leaves behind: its result under `id`, or nothing on error. */
  function Saved(s: State, id: string, r: Result<Delivery>): State {
    if r.Ok? then s.(deliveries := s.deliveries[id := r.value]) else s
  }

  // ---------- Reservations ----------

  function Reserved(s: State, event: Event, id: string, now: Time): (State, Option<Delivery>, bool) {
    if event.key in s.reserved then
      (s, Lookup(s.deliveries, s.reserved[event.key]), false)
    else
      var d := Delivery(id, event, Pending, 0, now, "", 0, None, "");
      (State(s.deliveries[id := d], s.reserved[event.key := id]), Some(d), true)
  }

  function RolledBack(s: State, key: string, id: string): State {
    if (if key in s.reserved then s.reserved[key] else "") != id then s
    else State(s.deliveries - {id}, s.reserved - {key})
  }

  function Kept(s: State, key: string, id: string): State {
    if key !in s.reserved || s.reserved[key] != id || id !in s.deliveries then s
    else s.(deliveries := s.deliveries - {id})
  }

  /** Rolling a reservation back undoes it exactly. */
  lemma RollbackUndoesReserve(s: State, event: Event, id: string, now: Time)
    requires event.key !in s.reserved && id !in s.deliveries
    ensures RolledBack(Reserved(s, event, id, now).0, event.key, id) == s
  {
    var r := Reserved(s, event, id, now).0;
    assert r.deliveries - {id} == s.deliveries;
    assert r.reserved - {event.key} == s.reserved;
  }

  /** Undoing a reservation touches nothing but the key and the id, and neither unless the key is reserved for that
      id; keeping it takes the delivery alone. A key that is not reserved passes for one reserved for the empty id. */
  lemma UndoneExactly(s: State, key: string, id: string)
    ensures var mine := Lookup(s.reserved, key) == Some(id);
            var undone := mine || (key !in s.reserved && |id| == 0);
            var t, kept := RolledBack(s, key, id), Kept(s, key, id);
            && (forall k :: Lookup(t.reserved, k) == if undone && k == key then None else Lookup(s.reserved, k))
            && (forall i :: Lookup(t.deliveries, i) == if undone && i == id then None else Lookup(s.deliveries, i))
            && kept.reserved == s.reserved
            && (forall i :: Lookup(kept.deliveries, i) == if mine && i == id then None else Lookup(s.deliveries, i))
  {
    if id !in s.deliveries {
      assert s.deliveries - {id} == s.deliveries;
    }
  }

  /** Every reservation names a stored delivery of that key, and every delivery is reserved. */
  ghost predicate Consistent(s: State, idOf: string -> string) {
    && (forall k | k in s.reserved ::
          s.reserved[k] == idOf(k) && idOf(k) in s.deliveries && s.deliveries[idOf(k)].event.key == k)
    && (forall id | id in s.deliveries ::
          s.deliveries[id].id == id && s.deliveries[id].event.key in s.reserved
          && idOf(s.deliveries[id].event.key) == id)
  }

  lemma UnreservedIsAbsent(s: State, idOf: string -> string, key: string)
    requires Consistent(s, idOf) && Injective(idOf) && key !in s.reserved
    ensures idOf(key) !in s.deliveries
  {
  }

  // ---------- Leases ----------

  function Acquired(s: State, id: string, owner: string, now: Time, ttl: Duration): Result<Delivery> {
    if id !in s.deliveries then Err(InvalidState)
    else
      var d := s.deliveries[id];
      if d.Terminal() || d.nextAttempt > now then Err(InvalidState)
      else if d.state == Leased && After(d.leaseUntil, now) then Err(LeaseConflict)
      else Ok(d.(state := Leased, leaseOwner := owner, leaseEpoch := d.leaseEpoch + 1, leaseUntil := Some(now + ttl)))
  }

  predicate Holds(s: State, id: string, owner: string, epoch: nat) {
    id in s.deliveries && s.deliveries[id].state == Leased &&
    s.deliveries[id].leaseOwner == owner && s.deliveries[id].leaseEpoch == epoch
  }

  function Completed(s: State, id: string, owner: string, epoch: nat): Result<Delivery> {
    if !Holds(s, id, owner, epoch) then Err(LeaseConflict)
    else Ok(s.deliveries[id].(state := Delivered, leaseOwner := "", leaseUntil := None))
  }

  function Retried(s: State, id: string, owner: string, epoch: nat, at: Time, cause: Error): Result<Delivery> {
    if !Holds(s, id, owner, epoch) then Err(LeaseConflict)
    else
      var d := s.deliveries[id];
      Ok(d.(state := Pending, attempt := d.attempt + 1, nextAttempt := at,
            leaseOwner := "", leaseUntil := None, lastError := cause.Text()))
  }

  function Died(s: State, id: string, owner: string, epoch: nat, cause: Error): Result<Delivery> {
    if !Holds(s, id, owner, epoch) then Err(LeaseConflict)
    else
      var d := s.deliveries[id];
      Ok(d.(state := Dead, attempt := d.attempt + 1, leaseOwner := "", leaseUntil := None, lastError := cause.Text()))
  }

  function Revived(s: State, id: string, at: Time): Result<Delivery> {
    if id !in s.deliveries || s.deliveries[id].state != Dead then Err(InvalidState)
    else
      Ok(s.deliveries[id].(state := Pending, nextAttempt := at, leaseOwner := "", leaseUntil := None,
                           lastError := "terminal journal append failed"))
  }

  // ---------- What one lease operation leaves for the next ----------

  /** Why no lease is granted: there is nothing to do yet, or somebody else is at it. */
  lemma AcquireRefusedExactly(s: State, id: string, owner: string, now: Time, ttl: Duration)
    ensures Acquired(s, id, owner, now, ttl) == Err(LeaseConflict) <==>
            exists d, until :: Lookup(s.deliveries, id) == Some(d) && d.state == Leased && d.nextAttempt <= now
                               && d.leaseUntil == Some(until) && now < until
    ensures Acquired(s, id, owner, now, ttl) == Err(InvalidState) <==>
            forall d :: Lookup(s.deliveries, id) == Some(d) ==>
                        d.state == Delivered || d.state == Dead || now < d.nextAttempt
    ensures var r := Acquired(s, id, owner, now, ttl);
            r.Ok? || r == Err(LeaseConflict) || r == Err(InvalidState)
  {
    if Acquired(s, id, owner, now, ttl) == Err(LeaseConflict) {
      assert Lookup(s.deliveries, id) == Some(s.deliveries[id]);
      assert s.deliveries[id].leaseUntil == Some(s.deliveries[id].leaseUntil.value);
    }
  }

  /** A lease shuts everyone out for exactly its term; then the next one is granted, an epoch later. */
  lemma LeaseLastsItsTerm(s: State, id: string, owner: string, now: Time, ttl: Duration, other: string, later: Time,
                          ttl2: Duration)
    requires Acquired(s, id, owner, now, ttl).Ok? && now <= later
    ensures var d := s.deliveries[id];
            var again := Acquired(Saved(s, id, Acquired(s, id, owner, now, ttl)), id, other, later, ttl2);
            if later < now + ttl then again == Err(LeaseConflict)
            else again == Ok(d.(state := Leased, leaseOwner := other, leaseEpoch := d.leaseEpoch + 2,
                                leaseUntil := Some(later + ttl2)))
  {
  }

  /** Of a delivery just leased: only the owner, under that epoch, completes it, gives it back or buries it. */
  lemma SettledByOwnerExactly(s: State, id: string, owner: string, now: Time, ttl: Duration, who: string, epoch: nat,
                              at: Time, cause: Error)
    requires Acquired(s, id, owner, now, ttl).Ok?
    ensures var t, d := Saved(s, id, Acquired(s, id, owner, now, ttl)), s.deliveries[id];
            var done, back, dead :=
              Completed(t, id, who, epoch), Retried(t, id, who, epoch, at, cause), Died(t, id, who, epoch, cause);
            if who != owner || epoch != d.leaseEpoch + 1 then
              done == back == dead == Err(LeaseConflict)
            else
              && done == Ok(Freed(d, Delivered, d.attempt, d.nextAttempt, d.lastError))
              && back == Ok(Freed(d, Pending, d.attempt + 1, at, cause.Text()))
              && dead == Ok(Freed(d, Dead, d.attempt + 1, d.nextAttempt, cause.Text()))
  {
  }

  /** A delivery `d` whose next lease is over. */
  function Freed(d: Delivery, state: DeliveryState, attempt: nat, nextAttempt: Time, lastError: string): Delivery {
    Delivery(d.id, d.event, state, attempt, nextAttempt, "", d.leaseEpoch + 1, None, lastError)
  }

  /** Once settled, nobody settles it again, whatever the epoch, until it is leased anew. */
  lemma SettledOnlyOnce(s: State, id: string, owner: string, epoch: nat, at: Time, cause: Error, who: string,
                        epoch2: nat, at2: Time, cause2: Error)
    ensures forall r | r in {Completed(s, id, owner, epoch), Retried(s, id, owner, epoch, at, cause),
                             Died(s, id, owner, epoch, cause)} && r.Ok? ::
              var t := Saved(s, id, r);
              && Completed(t, id, who, epoch2) == Err(LeaseConflict)
              && Retried(t, id, who, epoch2, at2, cause2) == Err(LeaseConflict)
              && Died(t, id, who, epoch2, cause2) == Err(LeaseConflict)
  {
  }

  /** Burying and reviving amounts to giving back, but for the error that is remembered. Nothing but a dead
      delivery is revived. */
  lemma RevivalIsGivingBack(s: State, id: string, owner: string, epoch: nat, at: Time, cause: Error)
    ensures var dead := Died(s, id, owner, epoch, cause);
            if dead.Ok? then
              Revived(Saved(s, id, dead), id, at) ==
              Ok(Retried(s, id, owner, epoch, at, cause).value.(lastError := "terminal journal append failed"))
            else Retried(s, id, owner, epoch, at, cause) == dead
    ensures Revived(s, id, at) == Err(InvalidState) <==>
            forall d :: Lookup(s.deliveries, id) == Some(d) ==> d.state != Dead
    ensures Revived(s, id, at).Err? ==> Revived(s, id, at) == Err(InvalidState)
  {
  }

  // ---------- The object ----------

  /** `found` holds the deliveries under `seen` that are in the state, and no two under the same id when
      every delivery bears its own. */
  ghost predicate Lists(found: seq<Delivery>, ds: map<string, Delivery>, seen: set<string>, state: DeliveryState)
    requires seen <= ds.Keys
  {
    && (forall d :: d in found <==> exists id :: id in seen && ds[id] == d && d.state == state)
    && ((forall id | id in ds :: ds[id].id == id) ==> forall i, j | 0 <= i < j < |found| :: found[i].id != found[j].id)
  }

  lemma ListsOneMore(found: seq<Delivery>, ds: map<string, Delivery>, seen: set<string>, id: string,
                     state: DeliveryState)
    requires seen <= ds.Keys && id in ds && id !in seen && Lists(found, ds, seen, state)
    ensures Lists(if ds[id].state == state then found + [ds[id]] else found, ds, seen + {id}, state)
  {
    var more := if ds[id].state == state then found + [ds[id]] else found;
    forall d ensures d in more <==> exists k :: k in seen + {id} && ds[k] == d && d.state == state {
      assert d in more <==> d in found || (ds[id].state == state && d == ds[id]);
      assert id in seen + {id};
    }
    if forall k | k in ds :: ds[k].id == k {
      forall i | 0 <= i < |found| ensures found[i].id != id {
        assert found[i] in found;
      }
    }
  }

  class Memory {
    var deliveries: map<string, Delivery>
    var reserved: map<string, string>

    ghost function View(): State
      reads this
    {
      State(deliveries, reserved)
    }

    constructor ()
      ensures View() == EMPTY
    {
      deliveries, reserved := map[], map[];
    }

    method Reserve(event: Event, id: string, now: Time) returns (d: Option<Delivery>, created: bool)
      modifies this
      ensures (View(), d, created) == Reserved(old(View()), event, id, now)
    {
      if event.key in reserved {
        return Lookup(deliveries, reserved[event.key]), false;
      }
      var delivery := Delivery(id, event, Pending, 0, now, "", 0, None, "");
      deliveries := deliveries[id := delivery];
      reserved := reserved[event.key := id];
      return Some(delivery), true;
    }

    method RollbackReservation(key: string, id: string)
      modifies this
      ensures View() == RolledBack(old(View()), key, id)
    {
      var holder := if key in reserved then reserved[key] else "";
      if holder != id {
        return;
      }
      reserved := reserved - {key};
      deliveries := deliveries - {id};
    }

    method KeepReservation(key: string, id: string)
      modifies this
      ensures View() == Kept(old(View()), key, id)
    {
      if key !in reserved {
        return;
      }
      if reserved[key] != id {
        return;
      }
      if id !in deliveries {
        return;
      }
      deliveries := deliveries - {id};
    }

    /** Lists the deliveries in one state. The order is the map's, hence any. */
    method ByState(state: DeliveryState) returns (found: seq<Delivery>)
      ensures forall d :: d in found <==> exists id :: id in deliveries && deliveries[id] == d && d.state == state
      ensures (forall id | id in deliveries :: deliveries[id].id == id) ==>
                forall i, j | 0 <= i < j < |found| :: found[i].id != found[j].id
    {
      found := [];
      var todo := deliveries.Keys;
      while todo != {}
        invariant todo <= deliveries.Keys && Lists(found, deliveries, deliveries.Keys - todo, state)
        decreases todo
      {
        var id :| id in todo;
        todo := todo - {id};
        assert deliveries.Keys - todo == (deliveries.Keys - (todo + {id})) + {id};
        ListsOneMore(found, deliveries, deliveries.Keys - (todo + {id}), id, state);
        if deliveries[id].state == state {
          found := found + [deliveries[id]];
        }
      }
      assert deliveries.Keys - todo == deliveries.Keys;
    }

    method Acquire(id: string, owner: string, now: Time, ttl: Duration) returns (r: Result<Delivery>)
      modifies this
      ensures r == Acquired(old(View()), id, owner, now, ttl)
      ensures View() == Saved(old(View()), id, r)
    {
      if id !in deliveries {
        return Err(InvalidState);
      }
      var delivery := deliveries[id];
      if delivery.Terminal() || delivery.nextAttempt > now {
        return Err(InvalidState);
      }
      if delivery.state == Leased && After(delivery.leaseUntil, now) {
        return Err(LeaseConflict);
      }
      delivery := delivery.(state := Leased, leaseOwner := owner, leaseEpoch := delivery.leaseEpoch + 1,
                            leaseUntil := Some(now + ttl));
      deliveries := deliveries[id := delivery];
      return Ok(delivery);
    }

    method Complete(id: string, owner: string, epoch: nat) returns (r: Result<Delivery>)
      modifies this
      ensures r == Completed(old(View()), id, owner, epoch)
      ensures View() == Saved(old(View()), id, r)
    {
      if !Holds(State(deliveries, reserved), id, owner, epoch) {
        return Err(LeaseConflict);
      }
      var delivery := deliveries[id].(state := Delivered, leaseOwner := "", leaseUntil := None);
      deliveries := deliveries[id := delivery];
      return Ok(delivery);
    }

    method Retry(id: string, owner: string, epoch: nat, at: Time, cause: Error) returns (r: Result<Delivery>)
      modifies this
      ensures r == Retried(old(View()), id, owner, epoch, at, cause)
      ensures View() == Saved(old(View()), id, r)
    {
      if !Holds(State(deliveries, reserved), id, owner, epoch) {
        return Err(LeaseConflict);
      }
      var delivery := deliveries[id];
      delivery := delivery.(state := Pending, attempt := delivery.attempt + 1, nextAttempt := at,
                            leaseOwner := "", leaseUntil := None, lastError := cause.Text());
      deliveries := deliveries[id := delivery];
      return Ok(delivery);
    }

    method Bury(id: string, owner: string, epoch: nat, cause: Error) returns (r: Result<Delivery>)
      modifies this
      ensures r == Died(old(View()), id, owner, epoch, cause)
      ensures View() == Saved(old(View()), id, r)
    {
      if !Holds(State(deliveries, reserved), id, owner, epoch) {
        return Err(LeaseConflict);
      }
      var delivery := deliveries[id];
      delivery := delivery.(state := Dead, attempt := delivery.attempt + 1,
                            leaseOwner := "", leaseUntil := None, lastError := cause.Text());
      deliveries := deliveries[id := delivery];
      return Ok(delivery);
    }

    method ReviveDead(id: string, at: Time) returns (r: Result<Delivery>)
      modifies this
      ensures r == Revived(old(View()), id, at)
      ensures View() == Saved(old(View()), id, r)
    {
      if id !in deliveries || deliveries[id].state != Dead {
        return Err(InvalidState);
      }
      var delivery := deliveries[id].(state := Pending, nextAttempt := at, leaseOwner := "", leaseUntil := None,
                                      lastError := "terminal journal append failed");
      deliveries := deliveries[id := delivery];
      return Ok(delivery);
    }
  }
}
