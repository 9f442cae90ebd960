/** The relay under any interleaving: each worker or submitter is a program counter between two
    lock-protected calls, and every call is one transition. */
module Interleaving {
  import opened Core
  import Store
  import Schedule
  import Breaker
  import opened Transactions

  // ---------- History ----------

  datatype Verdict = Completed | Failed | Postponed | Died

  /** What happened to one delivery: a lease was granted, settled, or a dead delivery revived. */
  datatype Ev =
    | Grant(proc: nat, epoch: nat, now: Time, until: Time)
    | Settle(proc: nat, epoch: nat, verdict: Verdict)
    | Revive(proc: nat)

  /** One id's current incarnation, from Reserve to rollback: its number, when it was reserved,
      its events, and whether a process left over from an earlier incarnation has revived it. */
  datatype History = History(inc: nat, reservedAt: Time, log: seq<Ev>, tainted: bool)

  // ---------- Processes ----------

  /** A lease in a worker's hands: `lease` is the delivery as Acquire returned it. */
  datatype Job = Job(forced: bool, id: string, now: Time, lease: Delivery, inc: nat)

  /** The lock-protected call a process makes next. */
  datatype PC =
    | Idle
    | AtPop(now: Time)
    | AtAcquire(forced: bool, key: string, now: Time)
    | AtAllow(job: Job)
    | AtSend(job: Job)
    | AtRelease(job: Job, failure: Option<string>)
    | AtComplete(job: Job)
    | AtJournalDelivered(job: Job)
    | AtDead(job: Job, cause: Error)
    | AtJournalDead(job: Job)
    | AtRevive(job: Job)
    | AtRetry(job: Job, cause: Error, deferred: bool)
    | AtJournalPending(job: Job, ready: Time)
    | AtSchedule(key: string, ready: Time)
    | AtReserve(event: Event, now: Time)
    | AtAdmit(event: Event, now: Time, inc: nat)
    | AtEnqueue(event: Event, now: Time, inc: nat)
    | AtRollback(event: Event, now: Time, inc: nat, journaled: bool)
    | AtJournalUndo(event: Event, now: Time, inc: nat)

  datatype Setup = Setup(workers: seq<Worker>, config: Config, idOf: string -> string, maxAttempts: int)

  /** `clock` is real time, and `steady` says that it has never gone back. `tags` names, for each
      journal entry, the incarnation its writer was working on; `completers` names the process
      that completed an incarnation. */
  datatype State = State(
    relay: Relay, procs: seq<PC>, clock: Time, steady: bool,
    hist: map<string, History>, tags: seq<nat>, completers: map<(string, nat), nat>)

  datatype Action =
    | Tick(to: Time)
    | BeginStep(p: nat)
    | BeginStepFor(p: nat, id: string)
    | BeginSubmit(p: nat, event: Event)
    | Go(p: nat, next: Option<string>, failure: Option<string>, reject: bool)
    | QueueElsewhere(id: string, ready: Time)    // RetryOverdue, replay
    | PopElsewhere(id: string)
    | ResetCircuit(endpoint: string)

  function Initial(n: nat, clock: Time): State {
    State(EMPTY, seq(n, _ => Idle), clock, true, map[], [], map[])
  }

  function Hist(s: State, id: string): History {
    if id in s.hist then s.hist[id] else History(0, 0, [], false)
  }

  function Moved(s: State, p: nat, pc: PC): State
    requires p < |s.procs|
  {
    s.(procs := s.procs[p := pc])
  }

  /** Stores `d` under `id` and logs how it came about. */
  function Logged(s: State, id: string, d: Delivery, ev: Ev, taint: bool): State {
    var h := Hist(s, id);
    s.(relay := s.relay.(store := s.relay.store.(deliveries := s.relay.store.deliveries[id := d])),
       hist := s.hist[id := h.(log := h.log + [ev], tainted := h.tainted || taint)])
  }

  function Written(s: State, reject: bool, id: string, event: Event, transition: DeliveryState, at: Time,
                   inc: nat): State {
    if reject then s else s.(relay := WithEntry(s.relay, false, id, event, transition, at), tags := s.tags + [inc])
  }

  // ---------- One call of one process ----------

  function Pop(s: State, p: nat, now: Time, next: Option<string>): State
    requires p < |s.procs|
  {
    match next
    case Some(id) =>
      if Schedule.IsNext(s.relay.queue, now, id) then
        Moved(s.(relay := Popped(s.relay, id)), p, AtAcquire(false, id, now))
      else s
    case None => if Schedule.Due(s.relay.queue, now) == {} then Moved(s, p, Idle) else s
  }

  function Acquire(s: State, w: Worker, p: nat, forced: bool, id: string, now: Time): State
    requires p < |s.procs|
  {
    match Store.Acquired(s.relay.store, id, w.id, now, w.ttl)
    case Err(_) => Moved(s, p, Idle)
    case Ok(d) =>
      Moved(Logged(s, id, d, Grant(p, d.leaseEpoch, now, now + w.ttl), false), p,
            AtAllow(Job(forced, id, now, d, Hist(s, id).inc)))
  }

  function Allow(s: State, p: nat, job: Job): State
    requires p < |s.procs|
  {
    var endpoint := job.lease.event.endpoint;
    if Breaker.Admits(Breaker.At(s.relay.circuits, endpoint), job.now) then
      Moved(s.(relay := s.relay.(circuits := Breaker.Admitted(s.relay.circuits, endpoint))), p, AtSend(job))
    else Moved(s, p, AtRetry(job, CircuitOpen, true))
  }

  function Release(s: State, env: Setup, w: Worker, p: nat, job: Job, failure: Option<string>): State
    requires p < |s.procs|
  {
    var circuits := Breaker.Reported(s.relay.circuits, env.config.limits, job.lease.event.endpoint, job.now,
                                     failure.None?);
    var next :=
      if failure.None? then AtComplete(job)
      else if job.forced then Idle
      else if job.lease.attempt + 1 >= w.maxAttempts then AtDead(job, SendFailed(failure.value))
      else AtRetry(job, SendFailed(failure.value), false);
    Moved(s.(relay := s.relay.(circuits := circuits)), p, next)
  }

  function Complete(s: State, w: Worker, p: nat, job: Job): State
    requires p < |s.procs|
  {
    match Store.Completed(s.relay.store, job.id, w.id, job.lease.leaseEpoch)
    case Err(_) => Moved(s, p, Idle)
    case Ok(d) =>
      var t := Logged(s, job.id, d, Settle(p, job.lease.leaseEpoch, Completed), false);
      Moved(t.(completers := s.completers[(job.id, Hist(s, job.id).inc) := p]), p, AtJournalDelivered(job))
  }

  function Kill(s: State, w: Worker, p: nat, job: Job, cause: Error): State
    requires p < |s.procs|
  {
    match Store.Died(s.relay.store, job.id, w.id, job.lease.leaseEpoch, cause)
    case Err(_) => Moved(s, p, Idle)
    case Ok(d) => Moved(Logged(s, job.id, d, Settle(p, job.lease.leaseEpoch, Died), false), p, AtJournalDead(job))
  }

  function ReviveDead(s: State, p: nat, job: Job): State
    requires p < |s.procs|
  {
    match Store.Revived(s.relay.store, job.id, job.now + SECOND)
    case Err(_) => Moved(s, p, Idle)
    case Ok(d) =>
      Moved(Logged(s, job.id, d, Revive(p), job.inc != Hist(s, job.id).inc), p, AtSchedule(job.id, d.nextAttempt))
  }

  function RetryAt(job: Job, deferred: bool): Time {
    job.now + if deferred then SECOND else BackoffFor(job.lease.attempt)
  }

  function GiveBack(s: State, w: Worker, p: nat, job: Job, cause: Error, deferred: bool): State
    requires p < |s.procs|
  {
    match Store.Retried(s.relay.store, job.id, w.id, job.lease.leaseEpoch, RetryAt(job, deferred), cause)
    case Err(_) => Moved(s, p, Idle)
    case Ok(d) =>
      Moved(Logged(s, job.id, d, Settle(p, job.lease.leaseEpoch, if deferred then Postponed else Failed), false), p,
            if deferred then AtSchedule(job.id, d.nextAttempt) else AtJournalPending(job, d.nextAttempt))
  }

  function Reserve(s: State, env: Setup, p: nat, event: Event, now: Time): State
    requires p < |s.procs|
  {
    var id := env.idOf(event.key);
    var (store, _, created) := Store.Reserved(s.relay.store, event, id, now);
    if !created then Moved(s, p, Idle)
    else
      var inc := Hist(s, id).inc + 1;
      Moved(s.(relay := s.relay.(store := store), hist := s.hist[id := History(inc, now, [], false)]), p,
            AtAdmit(event, now, inc))
  }

  function Rollback(s: State, env: Setup, p: nat, pc: PC): State
    requires p < |s.procs| && pc.AtRollback?
  {
    Moved(s.(relay := s.relay.(store := Store.RolledBack(s.relay.store, pc.event.key, env.idOf(pc.event.key)))), p,
          if pc.journaled then AtJournalUndo(pc.event, pc.now, pc.inc) else Idle)
  }

  function Advance(s: State, env: Setup, w: Worker, p: nat, next: Option<string>, failure: Option<string>,
                   reject: bool): State
    requires p < |s.procs|
  {
    match s.procs[p]
    case Idle => s
    case AtPop(now) => Pop(s, p, now, next)
    case AtAcquire(forced, id, now) => Acquire(s, w, p, forced, id, now)
    case AtAllow(job) => Allow(s, p, job)
    case AtSend(job) => Moved(s, p, AtRelease(job, failure))
    case AtRelease(job, f) => Release(s, env, w, p, job, f)
    case AtComplete(job) => Complete(s, w, p, job)
    case AtJournalDelivered(job) =>
      Moved(Written(s, reject, job.id, job.lease.event, Delivered, job.now, job.inc), p, Idle)
    case AtDead(job, cause) => Kill(s, w, p, job, cause)
    case AtJournalDead(job) =>
      Moved(Written(s, reject, job.id, job.lease.event, Dead, job.now, job.inc), p,
            if reject then AtRevive(job) else Idle)
    case AtRevive(job) => ReviveDead(s, p, job)
    case AtRetry(job, cause, deferred) => GiveBack(s, w, p, job, cause, deferred)
    case AtJournalPending(job, ready) =>
      Moved(Written(s, reject, job.id, job.lease.event, Pending, job.now, job.inc), p,
            if reject then Idle else AtSchedule(job.id, ready))
    case AtSchedule(id, ready) => Moved(s.(relay := WithSchedule(s.relay, env.config, id, ready)), p, Idle)
    case AtReserve(event, now) => Reserve(s, env, p, event, now)
    case AtAdmit(event, now, inc) =>
      Moved(Written(s, reject, env.idOf(event.key), event, Pending, now, inc), p,
            if reject then AtRollback(event, now, inc, false) else AtEnqueue(event, now, inc))
    case AtEnqueue(event, now, inc) =>
      var id := env.idOf(event.key);
      Moved(s.(relay := WithSchedule(s.relay, env.config, id, now)), p,
            if ScheduleError(s.relay, env.config, id, now).None? then Idle else AtRollback(event, now, inc, true))
    case AtRollback(_, _, _, _) => Rollback(s, env, p, s.procs[p])
    case AtJournalUndo(event, now, inc) =>
      Moved(Written(s, reject, env.idOf(event.key), event, Dead, now, inc), p, Idle)
  }

  /** One transition. An action of a process that is not there, or not idle when it should
      begin something, does not happen. */
  function Exec(s: State, env: Setup, a: Action): State {
    match a
    case Tick(to) => s.(clock := to, steady := s.steady && s.clock <= to)
    case BeginStep(p) => if Resting(s, p) then Moved(s, p, AtPop(s.clock)) else s
    case BeginStepFor(p, id) => if Resting(s, p) then Moved(s, p, AtAcquire(true, id, s.clock)) else s
    case BeginSubmit(p, event) => if Resting(s, p) && event.Valid() then Moved(s, p, AtReserve(event, s.clock)) else s
    case Go(p, next, failure, reject) =>
      if p < |s.procs| && p < |env.workers| then Advance(s, env, env.workers[p], p, next, failure, reject) else s
    case QueueElsewhere(id, ready) => s.(relay := WithSchedule(s.relay, env.config, id, ready))
    case PopElsewhere(id) => s.(relay := Popped(s.relay, id))
    case ResetCircuit(endpoint) => s.(relay := s.relay.(circuits := s.relay.circuits - {endpoint}))
  }

  predicate Resting(s: State, p: nat) {
    p < |s.procs| && s.procs[p].Idle?
  }

  function RunFrom(s: State, env: Setup, actions: seq<Action>): State {
    if actions == [] then s
    else Exec(RunFrom(s, env, actions[..|actions| - 1]), env, actions[|actions| - 1])
  }

  function Run(env: Setup, clock: Time, actions: seq<Action>): State {
    RunFrom(Initial(|env.workers|, clock), env, actions)
  }

  lemma RunOneMore(s: State, env: Setup, before: seq<Action>, last: Action)
    ensures RunFrom(s, env, before + [last]) == Exec(RunFrom(s, env, before), env, last)
  {
    assert (before + [last])[..|before|] == before;
  }

  lemma {:induction false} RunInTwo(s: State, env: Setup, a: seq<Action>, b: seq<Action>)
    ensures RunFrom(s, env, a + b) == RunFrom(RunFrom(s, env, a), env, b)
  {
    if b == [] {
      assert a + b == a;
    } else {
      var front, last := b[..|b| - 1], b[|b| - 1];
      RunInTwo(s, env, a, front);
      RunOneMore(s, env, a + front, last);
      assert a + b == a + front + [last];
    }
  }

  lemma RunThree(s: State, env: Setup, a: Action, b: Action, c: Action)
    ensures RunFrom(s, env, [a, b, c]) == Exec(Exec(Exec(s, env, a), env, b), env, c)
  {
    RunOneMore(s, env, [], a);
    RunOneMore(s, env, [a], b);
    RunOneMore(s, env, [a, b], c);
    assert [] + [a] == [a] && [a] + [b] == [a, b] && [a, b] + [c] == [a, b, c];
  }
}
