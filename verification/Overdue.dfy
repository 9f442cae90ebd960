/** RetryOverdue: requeue every due pending delivery, in whatever order the store lists them. */
module Overdue {
  import opened Core
  import opened Schedule

  /** The queue after the loop over `listed`, and how many of its deliveries were requeued. */
  function Requeued(q: Ready, capacity: int, listed: seq<Delivery>, now: Time): (Ready, nat) {
    if listed == [] then (q, 0)
    else
      var d := listed[|listed| - 1];
      var (q1, n) := Requeued(q, capacity, listed[..|listed| - 1], now);
      if d.nextAttempt > now then (q1, n)
      else
        match Scheduled(q1, capacity, d.id, d.nextAttempt)
        case Ok(q2) => (q2, n + 1)
        case Err(_) => (q1, n)
  }

  function Members(listed: seq<Delivery>): set<Delivery> {
    set d | d in listed
  }

  function DueIds(listed: seq<Delivery>, now: Time): set<string> {
    set d | d in listed && d.nextAttempt <= now :: d.id
  }

  /** No id is listed twice. */
  predicate Distinct(listed: seq<Delivery>) {
    listed == [] ||
    var front, d := listed[..|listed| - 1], listed[|listed| - 1];
    Distinct(front) && forall e | e in front :: e.id != d.id
  }

  lemma {:induction false} DistinctByIndex(listed: seq<Delivery>)
    requires forall i, j | 0 <= i < j < |listed| :: listed[i].id != listed[j].id
    ensures Distinct(listed)
  {
    if listed != [] {
      DistinctByIndex(listed[..|listed| - 1]);
    }
  }

  function Min(a: int, b: int): int {
    if a < b then a else b
  }

  function Free(q: Ready, capacity: int): nat {
    if capacity > |q| then capacity - |q| else 0
  }

  lemma DueIdsOfOneMore(listed: seq<Delivery>, now: Time)
    requires listed != [] && Distinct(listed)
    ensures var front, d := listed[..|listed| - 1], listed[|listed| - 1];
            && d.id !in DueIds(front, now)
            && DueIds(listed, now) == DueIds(front, now) + if d.nextAttempt <= now then {d.id} else {}
  {
    assert listed == listed[..|listed| - 1] + [listed[|listed| - 1]];
  }

  /** Nothing is dropped and only due deliveries are added. */
  lemma {:induction false} RequeuedKeys(q: Ready, capacity: int, listed: seq<Delivery>, now: Time)
    requires Distinct(listed)
    ensures q.Keys <= Requeued(q, capacity, listed, now).0.Keys <= q.Keys + DueIds(listed, now)
  {
    if listed != [] {
      var front, d := listed[..|listed| - 1], listed[|listed| - 1];
      DueIdsOfOneMore(listed, now);
      RequeuedKeys(q, capacity, front, now);
    }
  }

  /** A due delivery that is queued afterwards is queued at its NextAttempt; the rest stay put. */
  lemma {:induction false} RequeuedReady(q: Ready, capacity: int, listed: seq<Delivery>, now: Time, id: string)
    requires Distinct(listed) && id in Requeued(q, capacity, listed, now).0
    ensures var q' := Requeued(q, capacity, listed, now).0;
            if id in DueIds(listed, now) then exists d :: d in listed && d.id == id && q'[id] == d.nextAttempt
            else id in q && q'[id] == q[id]
  {
    if listed != [] {
      var front, d := listed[..|listed| - 1], listed[|listed| - 1];
      DueIdsOfOneMore(listed, now);
      if d.id == id && d.nextAttempt <= now {
        RequeuedKeys(q, capacity, front, now);
        assert d in listed;
      } else {
        RequeuedReady(q, capacity, front, now, id);
      }
    }
  }

  /** How many of the due deliveries find a free slot. */
  function Taken(queued: set<string>, due: set<string>, free: nat): nat {
    Min(|due - queued|, free)
  }

  lemma OneMoreDue(queued: set<string>, due: set<string>, id: string, free: nat)
    requires id !in due
    ensures |(due + {id}) * queued| == |due * queued| + if id in queued then 1 else 0
    ensures Taken(queued, due + {id}, free) ==
            Taken(queued, due, free) + if id !in queued && Taken(queued, due, free) < free then 1 else 0
  {
    if id in queued {
      assert (due + {id}) * queued == due * queued + {id};
      assert (due + {id}) - queued == due - queued;
    } else {
      assert (due + {id}) * queued == due * queued;
      assert (due + {id}) - queued == (due - queued) + {id};
    }
  }

  lemma ScheduledSize(q: Ready, id: string, ready: Time)
    ensures |q[id := ready]| == |q| + if id in q then 0 else 1
  {
    assert q[id := ready].Keys == q.Keys + {id};
  }

  /** The count depends only on which due deliveries there are and which of them are queued:
      all the queued ones, and as many of the others as there are free slots. */
  lemma {:induction false} RequeuedCount(q: Ready, capacity: int, listed: seq<Delivery>, now: Time)
    requires Distinct(listed)
    ensures Requeued(q, capacity, listed, now).1 ==
            |DueIds(listed, now) * q.Keys| + Taken(q.Keys, DueIds(listed, now), Free(q, capacity))
    ensures |Requeued(q, capacity, listed, now).0| == |q| + Taken(q.Keys, DueIds(listed, now), Free(q, capacity))
  {
    if listed != [] {
      var front, d := listed[..|listed| - 1], listed[|listed| - 1];
      DueIdsOfOneMore(listed, now);
      RequeuedCount(q, capacity, front, now);
      RequeuedKeys(q, capacity, front, now);
      OneMoreCounted(q, capacity, Requeued(q, capacity, front, now).0, DueIds(front, now), d);
    }
  }

  lemma OneMoreCounted(q: Ready, capacity: int, q1: Ready, due: set<string>, d: Delivery)
    requires d.id !in due && q.Keys <= q1.Keys <= q.Keys + due
    requires |q1| == |q| + Taken(q.Keys, due, Free(q, capacity))
    ensures var r := Scheduled(q1, capacity, d.id, d.nextAttempt);
            && |Updated(q1, r)| == |q| + Taken(q.Keys, due + {d.id}, Free(q, capacity))
            && |(due + {d.id}) * q.Keys| + Taken(q.Keys, due + {d.id}, Free(q, capacity)) ==
               |due * q.Keys| + Taken(q.Keys, due, Free(q, capacity)) + if r.Ok? then 1 else 0
  {
    OneMoreDue(q.Keys, due, d.id, Free(q, capacity));
    ScheduledSize(q1, d.id, d.nextAttempt);
  }

  /** With enough free slots every due delivery ends up queued. */
  lemma AllDueFit(q: Ready, capacity: int, listed: seq<Delivery>, now: Time)
    requires Distinct(listed)
    requires |DueIds(listed, now) - q.Keys| <= Free(q, capacity)
    ensures Requeued(q, capacity, listed, now).0.Keys == q.Keys + DueIds(listed, now)
  {
    RequeuedCount(q, capacity, listed, now);
    RequeuedKeys(q, capacity, listed, now);
    var due := DueIds(listed, now);
    assert q.Keys + due == q.Keys + (due - q.Keys);
    SameSize(Requeued(q, capacity, listed, now).0.Keys, q.Keys + due);
  }

  /** Two listings of the same deliveries give the same count, and the same queue if all fit. */
  lemma OrderDoesNotMatter(q: Ready, capacity: int, a: seq<Delivery>, b: seq<Delivery>, now: Time)
    requires Distinct(a) && Distinct(b) && Members(a) == Members(b)
    ensures Requeued(q, capacity, a, now).1 == Requeued(q, capacity, b, now).1
    ensures |DueIds(a, now) - q.Keys| <= Free(q, capacity) ==>
              Requeued(q, capacity, a, now) == Requeued(q, capacity, b, now)
  {
    SameDue(a, b, now);
    RequeuedCount(q, capacity, a, now);
    RequeuedCount(q, capacity, b, now);
    if |DueIds(a, now) - q.Keys| <= Free(q, capacity) {
      SameQueue(q, capacity, a, b, now);
    }
  }

  lemma SameDue(a: seq<Delivery>, b: seq<Delivery>, now: Time)
    requires Members(a) == Members(b)
    ensures DueIds(a, now) == DueIds(b, now)
  {
    forall d: Delivery ensures d in a <==> d in b {
      assert d in a <==> d in Members(a);
      assert d in b <==> d in Members(b);
    }
  }

  lemma SameQueue(q: Ready, capacity: int, a: seq<Delivery>, b: seq<Delivery>, now: Time)
    requires Distinct(a) && Distinct(b) && Members(a) == Members(b)
    requires DueIds(a, now) == DueIds(b, now)
    requires |DueIds(a, now) - q.Keys| <= Free(q, capacity)
    ensures Requeued(q, capacity, a, now).0 == Requeued(q, capacity, b, now).0
  {
    AllDueFit(q, capacity, a, now);
    AllDueFit(q, capacity, b, now);
    forall id | id in Requeued(q, capacity, a, now).0
      ensures Requeued(q, capacity, a, now).0[id] == Requeued(q, capacity, b, now).0[id]
    {
      SameReady(q, capacity, a, b, now, id);
    }
  }

  lemma SameReady(q: Ready, capacity: int, a: seq<Delivery>, b: seq<Delivery>, now: Time, id: string)
    requires Distinct(a) && Distinct(b) && DueIds(a, now) == DueIds(b, now) && Members(a) == Members(b)
    requires id in Requeued(q, capacity, a, now).0 && id in Requeued(q, capacity, b, now).0
    ensures Requeued(q, capacity, a, now).0[id] == Requeued(q, capacity, b, now).0[id]
  {
    RequeuedReady(q, capacity, a, now, id);
    RequeuedReady(q, capacity, b, now, id);
    if id in DueIds(a, now) {
      var d :| d in a && d.id == id && Requeued(q, capacity, a, now).0[id] == d.nextAttempt;
      var e :| e in b && e.id == id && Requeued(q, capacity, b, now).0[id] == e.nextAttempt;
      assert d in Members(a);
      OneOfEachId(b, d, e);
    }
  }

  lemma {:induction false} OneOfEachId(listed: seq<Delivery>, d: Delivery, e: Delivery)
    requires Distinct(listed) && d in listed && e in listed && d.id == e.id
    ensures d == e
  {
    var front, last := listed[..|listed| - 1], listed[|listed| - 1];
    assert listed == front + [last];
    if d in front && e in front {
      OneOfEachId(front, d, e);
    }
  }

  lemma SameSize(a: set<string>, b: set<string>)
    requires a <= b && |a| >= |b|
    ensures a == b
  {
    if x :| x in b && x !in a {
      SubsetSize(a, b - {x});
    }
  }
}
