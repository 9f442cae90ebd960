/** Exactly when backoff spacing holds along a run: as long as no revival comes too early. */
module LeaseSpacing {
  import opened Core
  import Store
  import opened Transactions
  import opened Interleaving
  import opened LeaseLog
  import opened LeaseInvariant
  import opened LeaseSteps
  import opened Targets
  import opened LeaseTheorems

  predicate SpacedAt(s: State, id: string) {
    match Lookup(s.relay.store.deliveries, id)
    case None => true
    case Some(d) => Spaced(d, Hist(s, id))
  }

  /** A revival set one second after its own step began, too soon for the failures the delivery has by now. */
  predicate TooEarly(d: Delivery, h: History, job: Job) {
    d.attempt <= 30 && job.now + SECOND < Spacing(h.reservedAt, Count(h.log, Failures))
  }

  /** The action is a ReviveDead call that will succeed for `id`, and it comes too early. */
  predicate RevivesTooEarly(s: State, a: Action, id: string) {
    && a.Go? && a.p < |s.procs| && s.procs[a.p].AtRevive? && s.procs[a.p].job.id == id
    && id in s.relay.store.deliveries && s.relay.store.deliveries[id].state == Dead
    && TooEarly(s.relay.store.deliveries[id], Hist(s, id), s.procs[a.p].job)
  }

  /** One call of ReviveDead keeps the spacing exactly when it does not come too early. */
  lemma RevivalSpacing(s: State, env: Setup, p: nat, job: Job)
    requires p < |s.procs| && s.procs[p] == AtRevive(job)
    requires Lookup(s.relay.store.deliveries, job.id).Some? && s.relay.store.deliveries[job.id].state == Dead
    requires SpacedAt(s, job.id)
    ensures var d, h := s.relay.store.deliveries[job.id], Hist(s, job.id);
            SpacedAt(ReviveDead(s, p, job), job.id) <==>
            d.attempt > 30 || Spacing(h.reservedAt, Count(h.log, Failures)) <= job.now + SECOND
  {
    var d, h := s.relay.store.deliveries[job.id], Hist(s, job.id);
    var t := ReviveDead(s, p, job);
    SpacedNext(d, h, t.relay.store.deliveries[job.id], Revive(p), t.hist[job.id].tainted);
  }

  /** In any state, a ReviveDead call that takes effect moves NextAttempt forward exactly when it was due by a
      second after the caller's step began. */
  lemma RevivalAdvancesExactly(s: State, p: nat, job: Job)
    requires p < |s.procs| && s.procs[p] == AtRevive(job)
    requires Lookup(s.relay.store.deliveries, job.id).Some? && s.relay.store.deliveries[job.id].state == Dead
    ensures Delayed(s, ReviveDead(s, p, job), job.id) <==>
            s.relay.store.deliveries[job.id].nextAttempt < job.now + SECOND
  {
    assert ReviveDead(s, p, job).relay.store.deliveries[job.id].nextAttempt == job.now + SECOND;
  }

  /** In a reachable state, a worker that revives the delivery it buried, in the same incarnation and before
      any stale revival, is never too early. */
  lemma OwnRevivalIsSpaced(env: Setup, clock: Time, actions: seq<Action>, a: Action, id: string)
    requires Sane(env)
    requires var s := Run(env, clock, actions);
             RevivesTooEarly(s, a, id) && !Hist(s, id).tainted
    ensures var s := Run(env, clock, actions);
            s.procs[a.p].job.inc < Hist(s, id).inc
  {
    AlwaysInv(env, clock, actions);
    var s := Run(env, clock, actions);
    assert ProcessAt(s, env, a.p) && RecordAt(s, env, id);
  }

  // ---------- One transition ----------

  /** `t` has stored `d'` and logged `e`. */
  predicate Relogged(s: State, t: State, id: string, d': Delivery, e: Ev) {
    && Lookup(t.relay.store.deliveries, id) == Some(d')
    && Hist(t, id) == Hist(s, id).(log := Hist(s, id).log + [e])
  }

  /** Any event but a failed send leaves the spacing as it was when NextAttempt stays. */
  lemma ReloggedSpacing(s: State, t: State, id: string, d': Delivery, e: Ev)
    requires Lookup(s.relay.store.deliveries, id).Some? && SpacedAt(s, id) && Relogged(s, t, id, d', e)
    requires var d := s.relay.store.deliveries[id];
             && d'.nextAttempt == d.nextAttempt && d'.attempt >= d.attempt && !Is(e, Failures)
             && (e.Grant? ==> d.attempt == Attempts(Hist(s, id).log) && d.nextAttempt <= e.now)
    ensures SpacedAt(t, id)
  {
    var d, h := s.relay.store.deliveries[id], Hist(s, id);
    SpacedNext(d, h, d', e, h.tainted);
  }

  lemma AcquireRelogs(s: State, w: Worker, p: nat, forced: bool, id: string, now: Time)
    requires p < |s.procs|
    ensures var r, t := Store.Acquired(s.relay.store, id, w.id, now, w.ttl), Acquire(s, w, p, forced, id, now);
            if r.Ok? then Relogged(s, t, id, r.value, Grant(p, r.value.leaseEpoch, now, now + w.ttl))
            else Alike(s, t, id)
  {
  }

  lemma AcquireSpacing(s: State, env: Setup, p: nat, forced: bool, id: string, now: Time)
    requires RecordAt(s, env, id) && p < |s.procs| && p < |env.workers| && SpacedAt(s, id)
    ensures SpacedAt(Acquire(s, env.workers[p], p, forced, id, now), id)
  {
    var w := env.workers[p];
    AcquireRelogs(s, w, p, forced, id, now);
    match Store.Acquired(s.relay.store, id, w.id, now, w.ttl)
    case Err(_) =>
    case Ok(d') =>
      ReloggedSpacing(s, Acquire(s, w, p, forced, id, now), id, d', Grant(p, d'.leaseEpoch, now, now + w.ttl));
  }

  lemma CompleteRelogs(s: State, w: Worker, p: nat, job: Job)
    requires p < |s.procs|
    ensures var r, t := Store.Completed(s.relay.store, job.id, w.id, job.lease.leaseEpoch), Complete(s, w, p, job);
            if r.Ok? then Relogged(s, t, job.id, r.value, Settle(p, job.lease.leaseEpoch, Completed))
            else Alike(s, t, job.id)
  {
  }

  lemma CompleteSpacing(s: State, w: Worker, p: nat, job: Job)
    requires p < |s.procs| && SpacedAt(s, job.id)
    ensures SpacedAt(Complete(s, w, p, job), job.id)
  {
    CompleteRelogs(s, w, p, job);
    match Store.Completed(s.relay.store, job.id, w.id, job.lease.leaseEpoch)
    case Err(_) =>
    case Ok(d') => ReloggedSpacing(s, Complete(s, w, p, job), job.id, d', Settle(p, job.lease.leaseEpoch, Completed));
  }

  lemma KillRelogs(s: State, w: Worker, p: nat, job: Job, cause: Error)
    requires p < |s.procs|
    ensures var r, t := Store.Died(s.relay.store, job.id, w.id, job.lease.leaseEpoch, cause), Kill(s, w, p, job, cause);
            if r.Ok? then Relogged(s, t, job.id, r.value, Settle(p, job.lease.leaseEpoch, Died))
            else Alike(s, t, job.id)
  {
  }

  lemma KillSpacing(s: State, w: Worker, p: nat, job: Job, cause: Error)
    requires p < |s.procs| && SpacedAt(s, job.id)
    ensures SpacedAt(Kill(s, w, p, job, cause), job.id)
  {
    KillRelogs(s, w, p, job, cause);
    match Store.Died(s.relay.store, job.id, w.id, job.lease.leaseEpoch, cause)
    case Err(_) =>
    case Ok(d') => ReloggedSpacing(s, Kill(s, w, p, job, cause), job.id, d', Settle(p, job.lease.leaseEpoch, Died));
  }

  lemma GiveBackSpacing(s: State, env: Setup, p: nat, job: Job, cause: Error, deferred: bool)
    requires Shaped(s, env) && p < |s.procs| && RecordAt(s, env, job.id) && ProcessAt(s, env, p)
    requires s.procs[p] == AtRetry(job, cause, deferred) && SpacedAt(s, job.id)
    ensures SpacedAt(GiveBack(s, env.workers[p], p, job, cause, deferred), job.id)
  {
    var t := GiveBack(s, env.workers[p], p, job, cause, deferred);
    if Store.Retried(s.relay.store, job.id, env.workers[p].id, job.lease.leaseEpoch, RetryAt(job, deferred),
                     cause).Ok? {
      StillHeld(s, env, p, job);
      RetrySpaced(s.relay.store.deliveries[job.id], Hist(s, job.id), t.relay.store.deliveries[job.id], p, job,
                  deferred);
    }
  }

  lemma AdmissionSpacing(s: State, env: Setup, w: Worker, p: nat, next: Option<string>, failure: Option<string>,
                         reject: bool, id: string)
    requires p < |s.procs| && (s.procs[p].AtReserve? || s.procs[p].AtRollback?)
    requires Target(env, s.procs[p]) == Some(id) && SpacedAt(s, id)
    ensures SpacedAt(Advance(s, env, w, p, next, failure, reject), id)
  {
    if s.procs[p].AtReserve? {
      assert Advance(s, env, w, p, next, failure, reject) == Reserve(s, env, p, s.procs[p].event, s.procs[p].now);
    } else {
      assert Advance(s, env, w, p, next, failure, reject) == Rollback(s, env, p, s.procs[p]);
    }
  }

  lemma TargetSpacing(s: State, env: Setup, p: nat, next: Option<string>, failure: Option<string>, reject: bool,
                      id: string)
    requires Shaped(s, env) && p < |s.procs| && RecordAt(s, env, id) && ProcessAt(s, env, p) && SpacedAt(s, id)
    requires Target(env, s.procs[p]) == Some(id) && !s.procs[p].AtRevive?
    ensures SpacedAt(Advance(s, env, env.workers[p], p, next, failure, reject), id)
  {
    var pc, w := s.procs[p], env.workers[p];
    if pc.AtAcquire? {
      AcquireSpacing(s, env, p, pc.forced, id, pc.now);
    } else if pc.AtComplete? {
      CompleteSpacing(s, w, p, pc.job);
    } else if pc.AtDead? {
      KillSpacing(s, w, p, pc.job, pc.cause);
    } else if pc.AtRetry? {
      GiveBackSpacing(s, env, p, pc.job, pc.cause, pc.deferred);
    } else {
      AdmissionSpacing(s, env, w, p, next, failure, reject, id);
    }
  }

  lemma AdvanceSpacing(s: State, env: Setup, p: nat, next: Option<string>, failure: Option<string>, reject: bool,
                       id: string)
    requires Shaped(s, env) && p < |s.procs| && RecordAt(s, env, id) && ProcessAt(s, env, p) && SpacedAt(s, id)
    ensures SpacedAt(Advance(s, env, env.workers[p], p, next, failure, reject), id) <==>
            !RevivesTooEarly(s, Go(p, next, failure, reject), id)
  {
    if Target(env, s.procs[p]) != Some(id) {
      OthersAlike(s, env, p, next, failure, reject, id);
    } else if !s.procs[p].AtRevive? {
      TargetSpacing(s, env, p, next, failure, reject, id);
    } else if id in s.relay.store.deliveries && s.relay.store.deliveries[id].state == Dead {
      RevivalSpacing(s, env, p, s.procs[p].job);
    }
  }

  /** One transition of a reachable state keeps the spacing exactly when it is not a revival that comes too early. */
  lemma ExecSpacing(s: State, env: Setup, a: Action, id: string)
    requires Inv(s, env) && SpacedAt(s, id)
    ensures SpacedAt(Exec(s, env, a), id) <==> !RevivesTooEarly(s, a, id)
  {
    if a.Go? && a.p < |s.procs| {
      assert RecordAt(s, env, id) && ProcessAt(s, env, a.p);
      AdvanceSpacing(s, env, a.p, a.next, a.failure, a.reject, id);
    } else {
      OutsideAlike(s, env, a, id);
    }
  }

  // ---------- Runs ----------

  lemma SpacedFromHere(env: Setup, clock: Time, actions: seq<Action>, id: string)
    requires Sane(env)
    requires forall i | 0 <= i < |actions| :: !RevivesTooEarly(Run(env, clock, actions[..i]), actions[i], id)
    ensures SpacedAt(Run(env, clock, actions), id)
  {
    if actions != [] {
      var front := actions[..|actions| - 1];
      forall i | 0 <= i < |front| ensures !RevivesTooEarly(Run(env, clock, front[..i]), front[i], id) {
        assert front[..i] == actions[..i];
      }
      SpacedFromHere(env, clock, front, id);
      AlwaysInv(env, clock, front);
      ExecSpacing(Run(env, clock, front), env, actions[|front|], id);
    }
  }

  /** Over a whole run, whatever its incarnations: the delivery is well spaced at every point exactly when no
      revival in the run comes too early. */
  lemma SpacingExactly(env: Setup, clock: Time, actions: seq<Action>, id: string)
    requires Sane(env)
    ensures (forall n | 0 <= n <= |actions| :: SpacedAt(Run(env, clock, actions[..n]), id)) <==>
            (forall i | 0 <= i < |actions| :: !RevivesTooEarly(Run(env, clock, actions[..i]), actions[i], id))
  {
    if forall i | 0 <= i < |actions| :: !RevivesTooEarly(Run(env, clock, actions[..i]), actions[i], id) {
      forall n | 0 <= n <= |actions| ensures SpacedAt(Run(env, clock, actions[..n]), id) {
        PrefixIsSpaced(env, clock, actions, id, n);
      }
    } else {
      var i :| 0 <= i < |actions| && RevivesTooEarly(Run(env, clock, actions[..i]), actions[i], id);
      EarlyRevivalUnspaces(env, clock, actions, id, i);
    }
  }

  lemma PrefixIsSpaced(env: Setup, clock: Time, actions: seq<Action>, id: string, n: nat)
    requires Sane(env) && n <= |actions|
    requires forall i | 0 <= i < |actions| :: !RevivesTooEarly(Run(env, clock, actions[..i]), actions[i], id)
    ensures SpacedAt(Run(env, clock, actions[..n]), id)
  {
    forall i | 0 <= i < n ensures !RevivesTooEarly(Run(env, clock, actions[..n][..i]), actions[..n][i], id) {
      assert actions[..n][..i] == actions[..i];
    }
    SpacedFromHere(env, clock, actions[..n], id);
  }

  lemma EarlyRevivalUnspaces(env: Setup, clock: Time, actions: seq<Action>, id: string, i: nat)
    requires Sane(env) && i < |actions| && RevivesTooEarly(Run(env, clock, actions[..i]), actions[i], id)
    ensures !SpacedAt(Run(env, clock, actions[..i]), id) || !SpacedAt(Run(env, clock, actions[..i + 1]), id)
  {
    if SpacedAt(Run(env, clock, actions[..i]), id) {
      AlwaysInv(env, clock, actions[..i]);
      ExecSpacing(Run(env, clock, actions[..i]), env, actions[i], id);
      assert actions[..i + 1][..i] == actions[..i];
    }
  }

  /** Without such a revival, stale workers or not: a delivery that has failed k times is next leased no earlier
      than 2^k - 1 seconds after its reservation, up to attempt 30, and it is not due before. */
  lemma SpacingWithoutEarlyRevivals(env: Setup, clock: Time, actions: seq<Action>, id: string)
    requires Sane(env) && id in Run(env, clock, actions).relay.store.deliveries
    requires forall i | 0 <= i < |actions| :: !RevivesTooEarly(Run(env, clock, actions[..i]), actions[i], id)
    ensures var s := Run(env, clock, actions);
            var d, h := s.relay.store.deliveries[id], Hist(s, id);
            && (forall j | 0 <= j < |h.log| && h.log[j].Grant? && Attempts(h.log[..j]) <= 30 ::
                  Spacing(h.reservedAt, Count(h.log[..j], Failures)) <= h.log[j].now)
            && (d.attempt <= 30 ==> Spacing(h.reservedAt, Count(h.log, Failures)) <= d.nextAttempt)
  {
    SpacedFromHere(env, clock, actions, id);
    var h := Hist(Run(env, clock, actions), id);
    GrantsSpaced(h.log, h.reservedAt);
  }
}
