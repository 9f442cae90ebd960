/** The two models of the relay agree: a process that nobody interrupts takes the relay where the whole
    operation takes it. */
module Uninterrupted {
  import opened Core
  import Store
  import Schedule
  import Breaker
  import opened Transactions
  import opened Interleaving

  /** The same action `n` times. */
  function Repeat(s: State, env: Setup, a: Action, n: nat): State
    decreases n
  {
    if n == 0 then s else Repeat(Exec(s, env, a), env, a, n - 1)
  }

  function Times(a: Action, n: nat): seq<Action> {
    if n == 0 then [] else Times(a, n - 1) + [a]
  }

  lemma {:induction false} RepeatLast(s: State, env: Setup, a: Action, n: nat)
    requires n > 0
    ensures Repeat(s, env, a, n) == Exec(Repeat(s, env, a, n - 1), env, a)
    decreases n
  {
    if n > 1 {
      RepeatLast(Exec(s, env, a), env, a, n - 1);
    }
  }

  lemma {:induction false} RepeatRuns(s: State, env: Setup, a: Action, n: nat)
    ensures RunFrom(s, env, Times(a, n)) == Repeat(s, env, a, n)
  {
    if n > 0 {
      RepeatRuns(s, env, a, n - 1);
      RepeatLast(s, env, a, n);
      RunOneMore(s, env, Times(a, n - 1), a);
    }
  }

  /** `n` calls of process `p` leave the relay as `r`, the process idle, and the others where they were. */
  predicate Ends(s: State, env: Setup, p: nat, go: Action, n: nat, r: Relay) {
    var t := Repeat(s, env, go, n);
    t.relay == r && p < |s.procs| && t.procs == s.procs[p := Idle] && t.clock == s.clock && t.steady == s.steady
  }

  predicate Moves(s: State, t: State, p: nat, pc: PC) {
    p < |s.procs| && t.procs == s.procs[p := pc] && t.clock == s.clock && t.steady == s.steady
  }

  lemma {:induction false} IdleEnds(s: State, env: Setup, p: nat, go: Action, n: nat)
    requires p < |s.procs| && s.procs[p] == Idle && go.Go? && go.p == p
    ensures Ends(s, env, p, go, n, s.relay)
    decreases n
  {
    assert s.procs == s.procs[p := Idle];
    if n > 0 {
      assert Exec(s, env, go) == s;
      IdleEnds(s, env, p, go, n - 1);
    }
  }

  /** One call, then the rest. */
  lemma EndsAfter(s: State, t: State, env: Setup, p: nat, go: Action, n: nat, r: Relay, pc: PC)
    requires n > 0 && t == Exec(s, env, go) && Moves(s, t, p, pc) && Ends(t, env, p, go, n - 1, r)
    ensures Ends(s, env, p, go, n, r)
  {
    assert s.procs[p := pc][p := Idle] == s.procs[p := Idle];
  }

  /** The worker is there, and `go` is its next call. */
  predicate Runs(s: State, env: Setup, p: nat, go: Action) {
    p < |s.procs| && p < |env.workers| && go.Go? && go.p == p
  }

  // ---------- From the last call backwards ----------

  lemma ScheduleEnds(s: State, env: Setup, p: nat, go: Action, n: nat)
    requires Runs(s, env, p, go) && n >= 1 && s.procs[p].AtSchedule?
    ensures Ends(s, env, p, go, n, WithSchedule(s.relay, env.config, s.procs[p].key, s.procs[p].ready))
  {
    var t := Exec(s, env, go);
    IdleEnds(t, env, p, go, n - 1);
    EndsAfter(s, t, env, p, go, n, t.relay, Idle);
  }

  lemma ReviveMoves(s: State, p: nat, job: Job)
    requires p < |s.procs|
    ensures var t := ReviveDead(s, p, job);
            match Store.Revived(s.relay.store, job.id, job.now + SECOND)
            case Err(_) => t.relay == s.relay && Moves(s, t, p, Idle)
            case Ok(d) =>
              t.relay == WithDelivery(s.relay, job.id, Ok(d)) && Moves(s, t, p, AtSchedule(job.id, d.nextAttempt))
  {
  }

  lemma RevivedEnds(s: State, t: State, env: Setup, p: nat, go: Action, n: nat, id: string, ready: Time)
    requires Runs(s, env, p, go) && n >= 2 && s.procs[p].AtRevive? && t == Exec(s, env, go)
    requires Moves(s, t, p, AtSchedule(id, ready))
    ensures Ends(s, env, p, go, n, WithSchedule(t.relay, env.config, id, ready))
  {
    ScheduleEnds(t, env, p, go, n - 1);
    EndsAfter(s, t, env, p, go, n, WithSchedule(t.relay, env.config, id, ready), AtSchedule(id, ready));
  }

  lemma NotRevivedEnds(s: State, t: State, env: Setup, p: nat, go: Action, n: nat)
    requires Runs(s, env, p, go) && n >= 1 && s.procs[p].AtRevive? && t == Exec(s, env, go)
    requires Moves(s, t, p, Idle)
    ensures Ends(s, env, p, go, n, t.relay)
  {
    IdleEnds(t, env, p, go, n - 1);
    EndsAfter(s, t, env, p, go, n, t.relay, Idle);
  }

  lemma ReviveEnds(s: State, env: Setup, p: nat, go: Action, n: nat)
    requires Runs(s, env, p, go) && n >= 2 && s.procs[p].AtRevive?
    ensures Ends(s, env, p, go, n, Transactions.Revive(s.relay, env.config, s.procs[p].job.id, s.procs[p].job.now))
  {
    var job := s.procs[p].job;
    var t := Exec(s, env, go);
    assert t == ReviveDead(s, p, job);
    ReviveMoves(s, p, job);
    match Store.Revived(s.relay.store, job.id, job.now + SECOND)
    case Err(_) => NotRevivedEnds(s, t, env, p, go, n);
    case Ok(d) => RevivedEnds(s, t, env, p, go, n, job.id, d.nextAttempt);
  }

  /** The relay after the Dead entry was written, or rejected and the delivery revived. */
  function Buried(s: Relay, c: Config, job: Job, reject: bool): Relay {
    if reject then Transactions.Revive(s, c, job.id, job.now)
    else WithEntry(s, false, job.id, job.lease.event, Dead, job.now)
  }

  lemma JournalDeadEnds(s: State, env: Setup, p: nat, go: Action, n: nat)
    requires Runs(s, env, p, go) && n >= 3 && s.procs[p].AtJournalDead?
    ensures Ends(s, env, p, go, n, Buried(s.relay, env.config, s.procs[p].job, go.reject))
  {
    var job := s.procs[p].job;
    var t := Exec(s, env, go);
    if go.reject {
      ReviveEnds(t, env, p, go, n - 1);
      EndsAfter(s, t, env, p, go, n, Buried(s.relay, env.config, job, true), AtRevive(job));
    } else {
      IdleEnds(t, env, p, go, n - 1);
      EndsAfter(s, t, env, p, go, n, t.relay, Idle);
    }
  }

  /** The delivery is still as process `p` leased it. */
  predicate HasLease(s: State, env: Setup, p: nat, job: Job) {
    && p < |env.workers| && Lookup(s.relay.store.deliveries, job.id) == Some(job.lease)
    && job.lease.state == Leased && job.lease.leaseOwner == env.workers[p].id
  }

  lemma DeadEnds(s: State, env: Setup, p: nat, go: Action, n: nat)
    requires Runs(s, env, p, go) && n >= 4 && s.procs[p].AtDead? && HasLease(s, env, p, s.procs[p].job)
    ensures var job := s.procs[p].job;
            Ends(s, env, p, go, n,
                 Bury(s.relay, env.config, env.workers[p], job.lease, job.id, job.now, s.procs[p].cause,
                      go.reject).relay)
  {
    var job, cause := s.procs[p].job, s.procs[p].cause;
    var t := Exec(s, env, go);
    assert t == Kill(s, env.workers[p], p, job, cause);
    JournalDeadEnds(t, env, p, go, n - 1);
    EndsAfter(s, t, env, p, go, n, Buried(t.relay, env.config, job, go.reject), AtJournalDead(job));
  }

  lemma JournalPendingEnds(s: State, env: Setup, p: nat, go: Action, n: nat)
    requires Runs(s, env, p, go) && n >= 2 && s.procs[p].AtJournalPending?
    ensures var job, ready := s.procs[p].job, s.procs[p].ready;
            Ends(s, env, p, go, n,
                 if go.reject then s.relay
                 else WithSchedule(WithEntry(s.relay, false, job.id, job.lease.event, Pending, job.now), env.config,
                                   job.id, ready))
  {
    var job, ready := s.procs[p].job, s.procs[p].ready;
    var t := Exec(s, env, go);
    if go.reject {
      IdleEnds(t, env, p, go, n - 1);
      EndsAfter(s, t, env, p, go, n, t.relay, Idle);
    } else {
      ScheduleEnds(t, env, p, go, n - 1);
      EndsAfter(s, t, env, p, go, n, WithSchedule(t.relay, env.config, job.id, ready), AtSchedule(job.id, ready));
    }
  }

  lemma GiveBackMoves(s: State, env: Setup, p: nat, job: Job, cause: Error, deferred: bool)
    requires p < |s.procs| && HasLease(s, env, p, job)
    ensures var t := GiveBack(s, env.workers[p], p, job, cause, deferred);
            var r := Store.Retried(s.relay.store, job.id, env.workers[p].id, job.lease.leaseEpoch,
                                   RetryAt(job, deferred), cause);
            && r.Ok? && r.value.event == job.lease.event && r.value.nextAttempt == RetryAt(job, deferred)
            && t.relay == WithDelivery(s.relay, job.id, r)
            && Moves(s, t, p, if deferred then AtSchedule(job.id, RetryAt(job, deferred))
                              else AtJournalPending(job, RetryAt(job, deferred)))
  {
  }

  lemma RetryEnds(s: State, env: Setup, p: nat, go: Action, n: nat)
    requires Runs(s, env, p, go) && n >= 3 && s.procs[p].AtRetry? && !s.procs[p].deferred &&
             HasLease(s, env, p, s.procs[p].job)
    ensures var job := s.procs[p].job;
            Ends(s, env, p, go, n,
                 Transactions.Retry(s.relay, env.config, env.workers[p], job.lease, job.id, job.now, s.procs[p].cause,
                                    go.reject).relay)
  {
    var job, cause := s.procs[p].job, s.procs[p].cause;
    var t := Exec(s, env, go);
    assert t == GiveBack(s, env.workers[p], p, job, cause, false);
    GiveBackMoves(s, env, p, job, cause, false);
    JournalPendingEnds(t, env, p, go, n - 1);
    RetryLeaves(s, env, p, job, cause, go.reject);
    EndsAfter(s, t, env, p, go, n, Backed(t.relay, env.config, job, go.reject),
              AtJournalPending(job, RetryAt(job, false)));
  }

  /** The relay after the Pending entry of a retry was written and the delivery queued, or the entry rejected. */
  function Backed(s: Relay, c: Config, job: Job, reject: bool): Relay {
    if reject then s
    else WithSchedule(WithEntry(s, false, job.id, job.lease.event, Pending, job.now), c, job.id, RetryAt(job, false))
  }

  lemma RetryLeaves(s: State, env: Setup, p: nat, job: Job, cause: Error, reject: bool)
    requires p < |s.procs| && HasLease(s, env, p, job)
    ensures var t := GiveBack(s, env.workers[p], p, job, cause, false);
            Backed(t.relay, env.config, job, reject) ==
            Transactions.Retry(s.relay, env.config, env.workers[p], job.lease, job.id, job.now, cause, reject).relay
  {
  }

  lemma DeferEnds(s: State, env: Setup, p: nat, go: Action, n: nat)
    requires Runs(s, env, p, go) && n >= 2 && s.procs[p].AtRetry? && HasLease(s, env, p, s.procs[p].job)
    requires s.procs[p] == AtRetry(s.procs[p].job, CircuitOpen, true)
    ensures var job := s.procs[p].job;
            Ends(s, env, p, go, n, Defer(s.relay, env.config, env.workers[p], job.lease, job.id, job.now).relay)
  {
    var job := s.procs[p].job;
    var t := Exec(s, env, go);
    assert t == GiveBack(s, env.workers[p], p, job, CircuitOpen, true);
    GiveBackMoves(s, env, p, job, CircuitOpen, true);
    ScheduleEnds(t, env, p, go, n - 1);
    EndsAfter(s, t, env, p, go, n, Defer(s.relay, env.config, env.workers[p], job.lease, job.id, job.now).relay,
              AtSchedule(job.id, RetryAt(job, true)));
  }

  lemma CompleteEnds(s: State, env: Setup, p: nat, go: Action, n: nat)
    requires Runs(s, env, p, go) && n >= 2 && s.procs[p].AtComplete? && HasLease(s, env, p, s.procs[p].job)
    ensures var job := s.procs[p].job;
            Ends(s, env, p, go, n,
                 Finish(s.relay, env.workers[p], job.lease, job.id, job.now, go.reject, job.forced).relay)
  {
    var job := s.procs[p].job;
    var t := Exec(s, env, go);
    assert t == Complete(s, env.workers[p], p, job) && t.procs[p] == AtJournalDelivered(job);
    var u := Exec(t, env, go);
    assert u == Moved(Written(t, go.reject, job.id, job.lease.event, Delivered, job.now, job.inc), p, Idle);
    IdleEnds(u, env, p, go, n - 2);
    EndsAfter(t, u, env, p, go, n - 1, u.relay, Idle);
    EndsAfter(s, t, env, p, go, n, u.relay, AtJournalDelivered(job));
  }

  // ---------- The send and what leads to it ----------

  /** The outcome of the send, once the breaker has its report. */
  function AfterReport(s: Relay, env: Setup, p: nat, job: Job, failure: Option<string>): Relay {
    s.(circuits := Breaker.Reported(s.circuits, env.config.limits, job.lease.event.endpoint, job.now, failure.None?))
  }

  lemma ReleaseEnds(s: State, env: Setup, p: nat, go: Action, n: nat)
    requires Runs(s, env, p, go) && n >= 5 && s.procs[p].AtRelease? && HasLease(s, env, p, s.procs[p].job)
    ensures var job, f := s.procs[p].job, s.procs[p].failure;
            Ends(s, env, p, go, n,
                 Settled(AfterReport(s.relay, env, p, job, f), env.config, env.workers[p], job.lease, job.id, job.now,
                         f, go.reject, job.forced).relay)
  {
    var job, f, w := s.procs[p].job, s.procs[p].failure, env.workers[p];
    var t := Exec(s, env, go);
    assert t == Release(s, env, w, p, job, f) && t.relay == AfterReport(s.relay, env, p, job, f);
    if f.None? {
      CompleteEnds(t, env, p, go, n - 1);
    } else if job.forced {
      IdleEnds(t, env, p, go, n - 1);
    } else if job.lease.attempt + 1 >= w.maxAttempts {
      DeadEnds(t, env, p, go, n - 1);
    } else {
      RetryEnds(t, env, p, go, n - 1);
    }
    EndsAfter(s, t, env, p, go, n,
              Settled(t.relay, env.config, w, job.lease, job.id, job.now, f, go.reject, job.forced).relay, t.procs[p]);
  }

  /** What is left of the step once the lease is held. */
  function OnceLeased(s: Relay, env: Setup, p: nat, job: Job, send: Option<string>, reject: bool): Relay
    requires p < |env.workers|
  {
    var endpoint := job.lease.event.endpoint;
    if !Breaker.Admits(Breaker.At(s.circuits, endpoint), job.now) then
      Defer(s, env.config, env.workers[p], job.lease, job.id, job.now).relay
    else
      var admitted := s.(circuits := Breaker.Admitted(s.circuits, endpoint));
      Settled(AfterReport(admitted, env, p, job, send), env.config, env.workers[p], job.lease, job.id, job.now, send,
              reject, job.forced).relay
  }

  lemma SendEnds(s: State, env: Setup, p: nat, go: Action, n: nat)
    requires Runs(s, env, p, go) && n >= 6 && s.procs[p].AtSend? && HasLease(s, env, p, s.procs[p].job)
    ensures var job := s.procs[p].job;
            Ends(s, env, p, go, n,
                 Settled(AfterReport(s.relay, env, p, job, go.failure), env.config, env.workers[p], job.lease, job.id,
                         job.now, go.failure, go.reject, job.forced).relay)
  {
    var job := s.procs[p].job;
    var t := Exec(s, env, go);
    assert t == Moved(s, p, AtRelease(job, go.failure));
    ReleaseEnds(t, env, p, go, n - 1);
    EndsAfter(s, t, env, p, go, n,
              Settled(AfterReport(s.relay, env, p, job, go.failure), env.config, env.workers[p], job.lease, job.id,
                      job.now, go.failure, go.reject, job.forced).relay, AtRelease(job, go.failure));
  }

  lemma AllowEnds(s: State, env: Setup, p: nat, go: Action, n: nat)
    requires Runs(s, env, p, go) && n >= 7 && s.procs[p].AtAllow? && HasLease(s, env, p, s.procs[p].job)
    ensures Ends(s, env, p, go, n, OnceLeased(s.relay, env, p, s.procs[p].job, go.failure, go.reject))
  {
    var job := s.procs[p].job;
    var t := Exec(s, env, go);
    AllowMoves(s, p, job);
    assert t == Allow(s, p, job);
    if Breaker.Admits(Breaker.At(s.relay.circuits, job.lease.event.endpoint), job.now) {
      AdmittedEnds(s, t, env, p, go, n, job);
    } else {
      RefusedEnds(s, t, env, p, go, n, job);
    }
  }

  lemma AllowMoves(s: State, p: nat, job: Job)
    requires p < |s.procs|
    ensures var t, endpoint := Allow(s, p, job), job.lease.event.endpoint;
            if Breaker.Admits(Breaker.At(s.relay.circuits, endpoint), job.now) then
              && t.relay == s.relay.(circuits := Breaker.Admitted(s.relay.circuits, endpoint))
              && Moves(s, t, p, AtSend(job))
            else t.relay == s.relay && Moves(s, t, p, AtRetry(job, CircuitOpen, true))
  {
  }

  lemma AdmittedEnds(s: State, t: State, env: Setup, p: nat, go: Action, n: nat, job: Job)
    requires Runs(s, env, p, go) && n >= 7 && s.procs[p] == AtAllow(job) && HasLease(s, env, p, job)
    requires t == Exec(s, env, go) && Moves(s, t, p, AtSend(job))
    requires Breaker.Admits(Breaker.At(s.relay.circuits, job.lease.event.endpoint), job.now)
    requires t.relay == s.relay.(circuits := Breaker.Admitted(s.relay.circuits, job.lease.event.endpoint))
    ensures Ends(s, env, p, go, n, OnceLeased(s.relay, env, p, job, go.failure, go.reject))
  {
    SendEnds(t, env, p, go, n - 1);
    EndsAfter(s, t, env, p, go, n, OnceLeased(s.relay, env, p, job, go.failure, go.reject), AtSend(job));
  }

  lemma RefusedEnds(s: State, t: State, env: Setup, p: nat, go: Action, n: nat, job: Job)
    requires Runs(s, env, p, go) && n >= 7 && s.procs[p] == AtAllow(job) && HasLease(s, env, p, job)
    requires t == Exec(s, env, go) && t.relay == s.relay && Moves(s, t, p, AtRetry(job, CircuitOpen, true))
    requires !Breaker.Admits(Breaker.At(s.relay.circuits, job.lease.event.endpoint), job.now)
    ensures Ends(s, env, p, go, n, OnceLeased(s.relay, env, p, job, go.failure, go.reject))
  {
    DeferEnds(t, env, p, go, n - 1);
    EndsAfter(s, t, env, p, go, n, OnceLeased(s.relay, env, p, job, go.failure, go.reject),
              AtRetry(job, CircuitOpen, true));
  }

  lemma WorkOnceLeased(s: Relay, env: Setup, p: nat, job: Job, send: Option<string>, reject: bool)
    requires p < |env.workers|
    requires Store.Acquired(s.store, job.id, env.workers[p].id, job.now, env.workers[p].ttl) == Ok(job.lease)
    ensures OnceLeased(WithDelivery(s, job.id, Ok(job.lease)), env, p, job, send, reject) ==
            Work(s, env.config, env.workers[p], job.id, job.now, send, reject, job.forced).relay
  {
  }

  lemma AcquireEnds(s: State, env: Setup, p: nat, go: Action, n: nat)
    requires Runs(s, env, p, go) && n >= 8 && s.procs[p].AtAcquire?
    ensures var pc := s.procs[p];
            Ends(s, env, p, go, n,
                 Work(s.relay, env.config, env.workers[p], pc.key, pc.now, go.failure, go.reject, pc.forced).relay)
  {
    var pc, w := s.procs[p], env.workers[p];
    var t := Exec(s, env, go);
    assert t == Acquire(s, w, p, pc.forced, pc.key, pc.now);
    match Store.Acquired(s.relay.store, pc.key, w.id, pc.now, w.ttl)
    case Err(_) =>
      IdleEnds(t, env, p, go, n - 1);
      EndsAfter(s, t, env, p, go, n, s.relay, Idle);
    case Ok(d) =>
      var job := t.procs[p].job;
      WorkOnceLeased(s.relay, env, p, job, go.failure, go.reject);
      AllowEnds(t, env, p, go, n - 1);
      EndsAfter(s, t, env, p, go, n, OnceLeased(t.relay, env, p, job, go.failure, go.reject), AtAllow(job));
  }

  // ---------- Whole operations ----------

  lemma BegunThenRepeated(s: State, env: Setup, begin: Action, go: Action, n: nat)
    ensures RunFrom(s, env, [begin] + Times(go, n)) == Repeat(Exec(s, env, begin), env, go, n)
  {
    RunInTwo(s, env, [begin], Times(go, n));
    RunOneMore(s, env, [], begin);
    assert [] + [begin] == [begin];
    RepeatRuns(Exec(s, env, begin), env, go, n);
  }

  lemma PopTakes(s: State, env: Setup, p: nat, go: Action, id: string)
    requires Runs(s, env, p, go) && s.procs[p].AtPop? && go.next == Some(id)
    requires Schedule.IsNext(s.relay.queue, s.procs[p].now, id)
    ensures var t := Exec(s, env, go);
            t.relay == Popped(s.relay, id) && Moves(s, t, p, AtAcquire(false, id, s.procs[p].now))
  {
    assert Exec(s, env, go) == Pop(s, p, s.procs[p].now, Some(id));
  }

  lemma PopEnds(s: State, t: State, env: Setup, p: nat, go: Action, n: nat, now: Time, id: string, r: Relay)
    requires Runs(s, env, p, go) && n >= 1 && t == Exec(s, env, go) && s.procs[p] == AtPop(now)
    requires Moves(s, t, p, AtAcquire(false, id, now)) && Ends(t, env, p, go, n - 1, r)
    ensures Ends(s, env, p, go, n, r)
  {
    EndsAfter(s, t, env, p, go, n, r, AtAcquire(false, id, now));
  }

  lemma StepEnds(s: State, env: Setup, p: nat, go: Action, n: nat, id: string)
    requires Runs(s, env, p, go) && n >= 9 && s.procs[p].AtPop? && go.next == Some(id)
    requires Schedule.IsNext(s.relay.queue, s.procs[p].now, id)
    ensures Ends(s, env, p, go, n,
                 Work(Popped(s.relay, id), env.config, env.workers[p], id, s.procs[p].now, go.failure, go.reject,
                      false).relay)
  {
    var now, t := s.procs[p].now, Exec(s, env, go);
    PopTakes(s, env, p, go, id);
    AcquireEnds(t, env, p, go, n - 1);
    PopEnds(s, t, env, p, go, n, now, id,
            Work(t.relay, env.config, env.workers[p], id, now, go.failure, go.reject, false).relay);
  }

  /** A state in which an operation that nobody interrupted has ended: relay `r`, the other processes and the
      clock as they were. */
  predicate Done(s: State, t: State, p: nat, r: Relay) {
    t.relay == r && t.procs == s.procs && t.clock == s.clock && t.steady == s.steady && Resting(t, p)
  }

  /** From any state: begin a Step and let it run alone, and the relay is where `Transactions.Step` takes it.
      Nine calls are always enough, and calls of an idle process change nothing. */
  lemma StepAlone(s: State, env: Setup, p: nat, id: string, send: Option<string>, reject: bool, n: nat)
    requires Resting(s, p) && p < |env.workers| && n >= 9
    requires Schedule.IsNext(s.relay.queue, s.clock, id)
    ensures Done(s, RunFrom(s, env, [BeginStep(p)] + Times(Go(p, Some(id), send, reject), n)), p,
                 Transactions.Step(s.relay, env.config, env.workers[p], id, s.clock, send, reject).relay)
  {
    var go := Go(p, Some(id), send, reject);
    BegunThenRepeated(s, env, BeginStep(p), go, n);
    var t := Exec(s, env, BeginStep(p));
    assert t == Moved(s, p, AtPop(s.clock));
    StepEnds(t, env, p, go, n, id);
    assert s.procs[p := AtPop(s.clock)][p := Idle] == s.procs;
  }

  lemma StepForAlone(s: State, env: Setup, p: nat, id: string, send: Option<string>, reject: bool, n: nat)
    requires Resting(s, p) && p < |env.workers| && n >= 8
    ensures Done(s, RunFrom(s, env, [BeginStepFor(p, id)] + Times(Go(p, None, send, reject), n)), p,
                 Transactions.StepFor(s.relay, env.config, env.workers[p], id, s.clock, send, reject).relay)
  {
    var go := Go(p, None, send, reject);
    BegunThenRepeated(s, env, BeginStepFor(p, id), go, n);
    var t := Exec(s, env, BeginStepFor(p, id));
    assert t == Moved(s, p, AtAcquire(true, id, s.clock));
    AcquireEnds(t, env, p, go, n);
    assert s.procs[p := AtAcquire(true, id, s.clock)][p := Idle] == s.procs;
  }

  /** A Step that finds nothing due. */
  lemma StepAloneFindsNothing(s: State, env: Setup, p: nat, send: Option<string>, reject: bool, n: nat)
    requires Resting(s, p) && p < |env.workers| && n >= 1
    requires Schedule.Due(s.relay.queue, s.clock) == {}
    ensures Done(s, RunFrom(s, env, [BeginStep(p)] + Times(Go(p, None, send, reject), n)), p, s.relay)
  {
    var go := Go(p, None, send, reject);
    BegunThenRepeated(s, env, BeginStep(p), go, n);
    var t := Exec(s, env, BeginStep(p));
    assert t == Moved(s, p, AtPop(s.clock));
    PopFindsNothing(t, env, p, go, n);
    assert s.procs[p := AtPop(s.clock)][p := Idle] == s.procs;
  }

  lemma PopFindsNothing(s: State, env: Setup, p: nat, go: Action, n: nat)
    requires Runs(s, env, p, go) && n >= 1 && s.procs[p].AtPop? && go.next == None
    requires Schedule.Due(s.relay.queue, s.procs[p].now) == {}
    ensures Ends(s, env, p, go, n, s.relay)
  {
    var t := Exec(s, env, go);
    assert t == Pop(s, p, s.procs[p].now, None);
    IdleEnds(t, env, p, go, n - 1);
    EndsAfter(s, t, env, p, go, n, s.relay, Idle);
  }

  // ---------- Submit ----------

  lemma EnqueueEnds(s: State, env: Setup, p: nat, go: Action, n: nat)
    requires Runs(s, env, p, go) && n >= 3 && s.procs[p].AtEnqueue?
    ensures var pc := s.procs[p];
            var id := env.idOf(pc.event.key);
            Ends(s, env, p, go, n,
                 if ScheduleError(s.relay, env.config, id, pc.now).None? then
                   WithSchedule(s.relay, env.config, id, pc.now)
                 else WithEntry(s.relay.(store := Store.RolledBack(s.relay.store, pc.event.key, id)), go.reject, id,
                                pc.event, Dead, pc.now))
  {
    var event, now, inc := s.procs[p].event, s.procs[p].now, s.procs[p].inc;
    var id := env.idOf(event.key);
    var t := Exec(s, env, go);
    if ScheduleError(s.relay, env.config, id, now).None? {
      IdleEnds(t, env, p, go, n - 1);
      EndsAfter(s, t, env, p, go, n, t.relay, Idle);
    } else {
      assert t.relay == s.relay && t.procs[p] == AtRollback(event, now, inc, true);
      RollbackEnds(t, env, p, go, n - 1);
      EndsAfter(s, t, env, p, go, n,
                WithEntry(s.relay.(store := Store.RolledBack(s.relay.store, event.key, id)), go.reject, id, event,
                          Dead, now),
                t.procs[p]);
    }
  }

  lemma RollbackEnds(s: State, env: Setup, p: nat, go: Action, n: nat)
    requires Runs(s, env, p, go) && n >= 2 && s.procs[p].AtRollback?
    ensures var pc := s.procs[p];
            var id := env.idOf(pc.event.key);
            var undone := s.relay.(store := Store.RolledBack(s.relay.store, pc.event.key, id));
            Ends(s, env, p, go, n,
                 if pc.journaled then WithEntry(undone, go.reject, id, pc.event, Dead, pc.now) else undone)
  {
    var pc := s.procs[p];
    var t := Exec(s, env, go);
    assert t == Rollback(s, env, p, pc);
    if pc.journaled {
      var u := Exec(t, env, go);
      assert u == Moved(Written(t, go.reject, env.idOf(pc.event.key), pc.event, Dead, pc.now, pc.inc), p, Idle);
      IdleEnds(u, env, p, go, n - 2);
      EndsAfter(t, u, env, p, go, n - 1, u.relay, Idle);
      EndsAfter(s, t, env, p, go, n, u.relay, t.procs[p]);
    } else {
      IdleEnds(t, env, p, go, n - 1);
      EndsAfter(s, t, env, p, go, n, t.relay, Idle);
    }
  }

  /** The two calls up to the first journal append, which may be rejected or not independently of the second. */
  lemma SubmitAlone(s: State, env: Setup, p: nat, event: Event, reject: bool, rejectUndo: bool, n: nat)
    requires Resting(s, p) && p < |env.workers| && n >= 3
    ensures var calls := [BeginSubmit(p, event), Go(p, None, None, false), Go(p, None, None, reject)];
            Done(s, RunFrom(s, env, calls + Times(Go(p, None, None, rejectUndo), n)), p,
                 Transactions.Submit(s.relay, env.config, env.idOf, event, s.clock, reject, rejectUndo).relay)
  {
    var go := Go(p, None, None, rejectUndo);
    var calls := [BeginSubmit(p, event), Go(p, None, None, false), Go(p, None, None, reject)];
    RunInTwo(s, env, calls, Times(go, n));
    RunThree(s, env, calls[0], calls[1], calls[2]);
    var t := RunFrom(s, env, calls);
    RepeatRuns(t, env, go, n);
    SubmitBegins(s, env, p, event, reject);
    if !event.Valid() || event.key in s.relay.store.reserved {
      IdleEnds(t, env, p, go, n);
    } else if reject {
      RollbackEnds(t, env, p, go, n);
    } else {
      EnqueueEnds(t, env, p, go, n);
    }
    assert s.procs[p := t.procs[p]][p := Idle] == s.procs;
  }

  /** Where a submitter stands after its reservation. */
  predicate Reserved(s: State, t: State, env: Setup, p: nat, event: Event) {
    var id := env.idOf(event.key);
    && p < |s.procs| && |t.procs| == |s.procs| && Moves(s, t, p, t.procs[p])
    && if !event.Valid() || event.key in s.relay.store.reserved then t.procs[p] == Idle && t.relay == s.relay
       else
         && t.relay == s.relay.(store := Store.Reserved(s.relay.store, event, id, s.clock).0)
         && t.procs[p] == AtAdmit(event, s.clock, Hist(s, id).inc + 1)
  }

  lemma SubmitReserves(s: State, env: Setup, p: nat, event: Event)
    requires Resting(s, p) && p < |env.workers|
    ensures Reserved(s, Exec(Exec(s, env, BeginSubmit(p, event)), env, Go(p, None, None, false)), env, p, event)
  {
    var s1 := Exec(s, env, BeginSubmit(p, event));
    var s2 := Exec(s1, env, Go(p, None, None, false));
    if event.Valid() {
      assert s1 == Moved(s, p, AtReserve(event, s.clock));
      assert s2 == Reserve(s1, env, p, event, s.clock);
      ReserveMoves(s, env, p, event);
    }
  }

  lemma ReserveMoves(s: State, env: Setup, p: nat, event: Event)
    requires p < |s.procs| && event.Valid()
    ensures Reserved(s, Reserve(Moved(s, p, AtReserve(event, s.clock)), env, p, event, s.clock), env, p, event)
  {
  }

  lemma SubmitBegins(s: State, env: Setup, p: nat, event: Event, reject: bool)
    requires Resting(s, p) && p < |env.workers|
    ensures var t := Exec(Exec(Exec(s, env, BeginSubmit(p, event)), env, Go(p, None, None, false)), env,
                          Go(p, None, None, reject));
            var id := env.idOf(event.key);
            && |t.procs| == |s.procs| && Moves(s, t, p, t.procs[p])
            && if !event.Valid() || event.key in s.relay.store.reserved then t.procs[p] == Idle && t.relay == s.relay
               else
                 var inc := Hist(s, id).inc + 1;
                 var reserved := s.relay.(store := Store.Reserved(s.relay.store, event, id, s.clock).0);
                 && t.relay == WithEntry(reserved, reject, id, event, Pending, s.clock)
                 && t.procs[p] == if reject then AtRollback(event, s.clock, inc, false)
                                  else AtEnqueue(event, s.clock, inc)
  {
    SubmitReserves(s, env, p, event);
  }
}
