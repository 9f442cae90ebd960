/** What holds of the leases in every interleaving of any number of workers and submitters. */
module LeaseTheorems {
  import opened Core
  import Store
  import opened Transactions
  import opened Interleaving
  import opened LeaseLog
  import opened LeaseInvariant
  import opened LeaseSteps

  lemma AlwaysInv(env: Setup, clock: Time, actions: seq<Action>)
    requires Sane(env)
    ensures Inv(Run(env, clock, actions), env)
  {
    InitiallyInv(env, clock);
    RunKeeps(Initial(|env.workers|, clock), env, actions);
  }

  lemma AlwaysRecorded(env: Setup, clock: Time, actions: seq<Action>, id: string)
    requires Sane(env)
    ensures RecordAt(Run(env, clock, actions), env, id)
  {
    AlwaysInv(env, clock, actions);
  }

  /** Fencing. Within an incarnation the epoch counts the grants, an epoch is settled at most once,
      by the process it was granted to and before any later grant, and a leased or delivered
      delivery has been leased once more than it has been given up. */
  lemma Fencing(env: Setup, clock: Time, actions: seq<Action>, id: string)
    requires Sane(env) && id in Run(env, clock, actions).relay.store.deliveries
    ensures var s := Run(env, clock, actions);
            var d, log := s.relay.store.deliveries[id], Hist(s, id).log;
            && d.leaseEpoch == Count(log, Grants)
            && d.attempt == Attempts(log)
            && (d.state == Leased || d.state == Delivered ==> d.attempt + 1 <= d.leaseEpoch)
            && (forall j | 0 <= j < |log| && log[j].Settle? ::
                  j > 0 && log[j - 1].Grant? && log[j - 1].proc == log[j].proc && log[j - 1].epoch == log[j].epoch
                  && log[j].epoch == Count(log[..j], Grants))
            && (forall i, j | 0 <= i < j < |log| && log[i].Settle? && log[j].Settle? :: log[i].epoch < log[j].epoch)
  {
    AlwaysRecorded(env, clock, actions, id);
    var log := Hist(Run(env, clock, actions), id).log;
    forall j | 0 <= j < |log| && log[j].Settle?
      ensures j > 0 && log[j - 1].Grant? && log[j - 1].proc == log[j].proc && log[j - 1].epoch == log[j].epoch
      ensures log[j].epoch == Count(log[..j], Grants)
    {
      SettledByGrantee(log, j);
    }
    forall i, j | 0 <= i < j < |log| && log[i].Settle? && log[j].Settle? ensures log[i].epoch < log[j].epoch {
      SettledOnce(log, i, j);
    }
  }

  /** Lease exclusion in time: as long as the clock has not gone back, of two leases of one
      delivery that nobody has settled, the older has run out by now. */
  lemma LeaseExclusion(env: Setup, clock: Time, actions: seq<Action>, id: string, i: nat, j: nat)
    requires Sane(env) && id in Run(env, clock, actions).relay.store.deliveries
    requires var s := Run(env, clock, actions);
             s.steady && i < j && Unsettled(Hist(s, id).log, i) && Unsettled(Hist(s, id).log, j)
    ensures var s := Run(env, clock, actions);
            Hist(s, id).log[i].until <= s.clock
  {
    AlwaysRecorded(env, clock, actions, id);
    var s := Run(env, clock, actions);
    UnsettledHasLapsed(Hist(s, id).log, i, s.clock);
  }

  /** Send budget: circuit-open retries push Attempt without bound, but the failed sends settled
      for a delivery are at most max(1, MaxAttempts) plus one for every revival. */
  lemma SendBudget(env: Setup, clock: Time, actions: seq<Action>, id: string)
    requires Sane(env) && id in Run(env, clock, actions).relay.store.deliveries
    ensures var log := Hist(Run(env, clock, actions), id).log;
            Count(log, Failures) + Count(log, Deaths) <= Max(1, env.maxAttempts) + Count(log, Revivals)
  {
    AlwaysRecorded(env, clock, actions, id);
  }

  /** Completion is once and final in an incarnation: it is the last event, nothing can lease,
      settle or revive the delivery any more, and the journal holds at most one Delivered entry. */
  lemma CompletionIsFinal(env: Setup, clock: Time, actions: seq<Action>, id: string,
                          owner: string, epoch: nat, at: Time, ttl: Duration, cause: Error)
    requires Sane(env) && id in Run(env, clock, actions).relay.store.deliveries
    ensures var s := Run(env, clock, actions);
            var store, log := s.relay.store, Hist(s, id).log;
            && (forall j | 0 <= j < |log| && log[j].Settle? && log[j].verdict == Completed :: j == |log| - 1)
            && (store.deliveries[id].state == Delivered <==>
                  log != [] && log[|log| - 1].Settle? && log[|log| - 1].verdict == Completed)
            && (store.deliveries[id].state == Delivered ==>
                  && Store.Acquired(store, id, owner, at, ttl).Err? && Store.Completed(store, id, owner, epoch).Err?
                  && Store.Retried(store, id, owner, epoch, at, cause).Err?
                  && Store.Died(store, id, owner, epoch, cause).Err?
                  && Store.Revived(store, id, at).Err?)
  {
    AlwaysRecorded(env, clock, actions, id);
    var log := Hist(Run(env, clock, actions), id).log;
    forall j | 0 <= j < |log| && log[j].Settle? && log[j].verdict == Completed ensures j == |log| - 1 {
      CompletionIsLast(log, j);
    }
  }

  /** Of each incarnation the journal holds at most one Delivered entry, and only if it completed. */
  lemma DeliveredJournaledOnce(env: Setup, clock: Time, actions: seq<Action>, id: string, inc: nat)
    requires Sane(env)
    ensures var s := Run(env, clock, actions);
            && |s.tags| == |s.relay.journal|
            && Deliveries(s.relay.journal, s.tags, id, inc) <= 1
            && (Deliveries(s.relay.journal, s.tags, id, inc) == 1 ==> (id, inc) in s.completers)
            && (id in s.relay.store.deliveries ==>
                  (s.relay.store.deliveries[id].state == Delivered <==> (id, Hist(s, id).inc) in s.completers))
  {
    AlwaysInv(env, clock, actions);
    assert CompletionAt(Run(env, clock, actions), env, id, inc) && RecordAt(Run(env, clock, actions), env, id);
  }

  /** Backoff spacing: while Attempt is at most 30, a delivery that has failed k times is next
      leased no earlier than 2^k - 1 seconds after its reservation, and it is not due before.
      The one exception is an incarnation revived by a process left over from an earlier one,
      which the first incarnation of an id cannot be. */
  lemma BackoffSpacing(env: Setup, clock: Time, actions: seq<Action>, id: string)
    requires Sane(env) && id in Run(env, clock, actions).relay.store.deliveries
    ensures var s := Run(env, clock, actions);
            var d, h := s.relay.store.deliveries[id], Hist(s, id);
            && (h.tainted ==> h.inc > 1)
            && (!h.tainted ==>
                  && (forall j | 0 <= j < |h.log| && h.log[j].Grant? && Attempts(h.log[..j]) <= 30 ::
                        Spacing(h.reservedAt, Count(h.log[..j], Failures)) <= h.log[j].now)
                  && (d.attempt <= 30 ==> Spacing(h.reservedAt, Count(h.log, Failures)) <= d.nextAttempt))
  {
    AlwaysRecorded(env, clock, actions, id);
    var h := Hist(Run(env, clock, actions), id);
    if !h.tainted {
      GrantsSpaced(h.log, h.reservedAt);
    }
  }

  lemma GiveBackAdvances(s: State, env: Setup, p: nat, job: Job, cause: Error, deferred: bool)
    requires Sane(env) && Shaped(s, env) && p < |s.procs| && RecordAt(s, env, job.id) && ProcessAt(s, env, p)
    requires s.procs[p] == AtRetry(job, cause, deferred)
    ensures var t := GiveBack(s, env.workers[p], p, job, cause, deferred);
            t.relay.store != s.relay.store ==> Delayed(s, t, job.id)
  {
    match Store.Retried(s.relay.store, job.id, env.workers[p].id, job.lease.leaseEpoch, RetryAt(job, deferred), cause)
    case Err(_) =>
    case Ok(d') => GiveBackSound(s, env, p, job, cause, deferred, d');
  }

  lemma RevivalAdvances(s: State, env: Setup, p: nat, job: Job)
    requires Sane(env) && Shaped(s, env) && p < |s.procs| && RecordAt(s, env, job.id) && ProcessAt(s, env, p)
    requires s.procs[p] == AtRevive(job) && job.inc == Hist(s, job.id).inc && !Hist(s, job.id).tainted
    ensures var t := ReviveDead(s, p, job);
            t.relay.store != s.relay.store ==> Delayed(s, t, job.id)
  {
    match Store.Revived(s.relay.store, job.id, job.now + SECOND)
    case Err(_) =>
    case Ok(d') => ReviveSound(s, env, p, job, d');
  }

  /** `id` is pending again, due later than it was. */
  predicate Delayed(s: State, t: State, id: string) {
    && id in s.relay.store.deliveries && id in t.relay.store.deliveries
    && t.relay.store.deliveries[id].state == Pending
    && t.relay.store.deliveries[id].nextAttempt > s.relay.store.deliveries[id].nextAttempt
  }

  /** What the next call at `pc` does to NextAttempt, if it takes effect. */
  predicate MovesForward(s: State, t: State, pc: PC) {
    match pc
    case AtRetry(job, _, _) => t.relay.store != s.relay.store ==> Delayed(s, t, job.id)
    case AtRevive(job) =>
      job.inc == Hist(s, job.id).inc && !Hist(s, job.id).tainted && t.relay.store != s.relay.store ==>
        Delayed(s, t, job.id)
    case _ => true
  }

  lemma CallMovesForward(s: State, env: Setup, p: nat, next: Option<string>, failure: Option<string>, reject: bool)
    requires Sane(env) && Shaped(s, env) && p < |s.procs| && ProcessAt(s, env, p)
    requires s.procs[p].AtRetry? || s.procs[p].AtRevive? ==> RecordAt(s, env, s.procs[p].job.id)
    ensures MovesForward(s, Advance(s, env, env.workers[p], p, next, failure, reject), s.procs[p])
  {
    var pc := s.procs[p];
    if pc.AtRetry? {
      GiveBackAdvances(s, env, p, pc.job, pc.cause, pc.deferred);
    } else if pc.AtRevive? && pc.job.inc == Hist(s, pc.job.id).inc && !Hist(s, pc.job.id).tainted {
      RevivalAdvances(s, env, p, pc.job);
    }
  }

  /** Every retry that takes effect moves NextAttempt forward, and so does every revival of a
      delivery within its own incarnation. */
  lemma NextAttemptAdvances(env: Setup, clock: Time, actions: seq<Action>, p: nat,
                            next: Option<string>, failure: Option<string>, reject: bool)
    requires Sane(env) && p < |env.workers| && p < |Run(env, clock, actions).procs|
    ensures var s := Run(env, clock, actions);
            MovesForward(s, Exec(s, env, Go(p, next, failure, reject)), s.procs[p])
  {
    AlwaysInv(env, clock, actions);
    var s := Run(env, clock, actions);
    assert ProcessAt(s, env, p);
    if s.procs[p].AtRetry? || s.procs[p].AtRevive? {
      assert RecordAt(s, env, s.procs[p].job.id);
    }
    CallMovesForward(s, env, p, next, failure, reject);
  }

  predicate Logs(pc: PC) {
    pc.AtAcquire? || pc.AtComplete? || pc.AtDead? || pc.AtRetry? || pc.AtRevive?
  }

  lemma LoggingKeepsCompleters(s: State, env: Setup, w: Worker, p: nat, next: Option<string>, failure: Option<string>,
                               reject: bool, of: (string, nat))
    requires p < |s.procs| && of in s.completers && Logs(s.procs[p])
    ensures of in Advance(s, env, w, p, next, failure, reject).completers
  {
  }

  lemma AdvanceKeepsCompleters(s: State, env: Setup, w: Worker, p: nat, next: Option<string>, failure: Option<string>,
                               reject: bool, of: (string, nat))
    requires p < |s.procs| && of in s.completers
    ensures of in Advance(s, env, w, p, next, failure, reject).completers
  {
    if Logs(s.procs[p]) {
      LoggingKeepsCompleters(s, env, w, p, next, failure, reject, of);
    }
  }

  lemma {:induction false} CompletersLast(s: State, env: Setup, actions: seq<Action>, id: string, inc: nat)
    requires (id, inc) in s.completers
    ensures (id, inc) in RunFrom(s, env, actions).completers
  {
    if actions != [] {
      var t, a := RunFrom(s, env, actions[..|actions| - 1]), actions[|actions| - 1];
      CompletersLast(s, env, actions[..|actions| - 1], id, inc);
      if a.Go? && a.p < |t.procs| && a.p < |env.workers| {
        AdvanceKeepsCompleters(t, env, env.workers[a.p], a.p, a.next, a.failure, a.reject, (id, inc));
      }
    }
  }

  /** A completed delivery is still delivered at every later point of the run, for as long as its
      incarnation lasts. */
  lemma CompletionPersists(env: Setup, clock: Time, before: seq<Action>, after: seq<Action>, id: string)
    requires Sane(env)
    requires Lookup(Run(env, clock, before).relay.store.deliveries, id).Some?
    requires Lookup(Run(env, clock, before).relay.store.deliveries, id).value.state == Delivered
    ensures var s := Run(env, clock, before);
            var t := RunFrom(s, env, after);
            id in t.relay.store.deliveries && Hist(t, id).inc == Hist(s, id).inc ==>
              t.relay.store.deliveries[id].state == Delivered
  {
    AlwaysInv(env, clock, before);
    var s := Run(env, clock, before);
    RunKeeps(s, env, after);
    assert RecordAt(s, env, id);
    CompletersLast(s, env, after, id, Hist(s, id).inc);
    assert RecordAt(RunFrom(s, env, after), env, id);
  }
}
