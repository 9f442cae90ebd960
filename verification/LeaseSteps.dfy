/** Every transition of the interleaved relay keeps the invariant. */
module LeaseSteps {
  import opened Core
  import Store
  import opened Transactions
  import opened Interleaving
  import opened LeaseInvariant

  /** `t` differs from `s` at most in the queue, the circuits and the processes. */
  predicate SameRecords(s: State, t: State) {
    && t.relay.store == s.relay.store && t.relay.journal == s.relay.journal
    && t.hist == s.hist && t.tags == s.tags && t.completers == s.completers
    && t.clock == s.clock && t.steady == s.steady
  }

  /** Process `p` moves on to `pc`, whose knowledge holds; nothing else of note changes. */
  lemma QuietStep(s: State, t: State, env: Setup, p: nat, pc: PC)
    requires Inv(s, env) && p < |s.procs| && SameRecords(s, t) && t.procs == s.procs[p := pc]
    requires var (id, inc) := About(env, pc);
             ProcessOK(env, p, pc, Lookup(s.relay.store.deliveries, id), Hist(s, id),
                       Lookup(s.completers, (id, inc)), Deliveries(s.relay.journal, s.tags, id, inc), s.clock, s.steady)
    ensures Inv(t, env)
  {
    forall id ensures RecordAt(t, env, id) { assert RecordAt(s, env, id); }
    forall id, inc ensures CompletionAt(t, env, id, inc) { assert CompletionAt(s, env, id, inc); }
    forall q: nat | q < |t.procs| ensures ProcessAt(t, env, q) { assert ProcessAt(s, env, q); }
  }

  /** A quiet change by no process at all. */
  lemma OutsideStep(s: State, t: State, env: Setup)
    requires Inv(s, env) && SameRecords(s, t) && t.procs == s.procs
    ensures Inv(t, env)
  {
    forall id ensures RecordAt(t, env, id) { assert RecordAt(s, env, id); }
    forall id, inc ensures CompletionAt(t, env, id, inc) { assert CompletionAt(s, env, id, inc); }
    forall q: nat | q < |t.procs| ensures ProcessAt(t, env, q) { assert ProcessAt(s, env, q); }
  }

  lemma TickStep(s: State, env: Setup, to: Time)
    requires Inv(s, env)
    ensures Inv(Exec(s, env, Tick(to)), env)
  {
    var t := Exec(s, env, Tick(to));
    forall id ensures RecordAt(t, env, id) { assert RecordAt(s, env, id); }
    forall id, inc ensures CompletionAt(t, env, id, inc) { assert CompletionAt(s, env, id, inc); }
    forall q: nat | q < |t.procs| ensures ProcessAt(t, env, q) { assert ProcessAt(s, env, q); }
  }

  // ---------- Steps that change one delivery ----------

  /** How a logged change by process `p` may turn one record into another. */
  predicate ChangeBy(env: Setup, p: nat, d: Delivery, h: History, d': Delivery, h': History) {
    && p < |env.workers| && d'.id == d.id && d'.event == d.event
    && h'.inc == h.inc && h'.reservedAt == h.reservedAt && (h.tainted ==> h'.tainted)
    && (d'.state == Leased ==> d'.leaseOwner == env.workers[p].id)
    && (d.state == Dead ==> h'.tainted || (h.log != [] && h.log[|h.log| - 1].Settle? && h.log[|h.log| - 1].proc == p))
    && d.state != Delivered
  }

  lemma ChangeKeepsHolding(env: Setup, p: nat, q: nat, job: Job, d: Delivery, h: History, d': Delivery, h': History,
                           clock: Time, steady: bool)
    requires Sane(env) && ChangeBy(env, p, d, h, d', h') && q != p
    requires Holding(env, q, job, Some(d), h, clock, steady)
    ensures Holding(env, q, job, Some(d'), h', clock, steady)
  {
  }

  lemma ChangeKeepsBurying(env: Setup, p: nat, q: nat, job: Job, d: Delivery, h: History, d': Delivery, h': History)
    requires ChangeBy(env, p, d, h, d', h') && q != p
    requires Burying(q, job, Some(d), h)
    ensures Burying(q, job, Some(d'), h')
  {
  }

  /** The state after process `p` has logged `ev`; with `completes`, it is the completer. */
  function AfterLog(s: State, p: nat, pc: PC, id: string, d': Delivery, ev: Ev, taint: bool, completes: bool): State
    requires p < |s.procs|
  {
    var t := Logged(s, id, d', ev, taint);
    Moved(if completes then t.(completers := s.completers[(id, Hist(s, id).inc) := p]) else t, p, pc)
  }

  function NextHistory(h: History, ev: Ev, taint: bool): History {
    h.(log := h.log + [ev], tainted := h.tainted || taint)
  }

  /** When logging `ev` and storing `d'` is sound. */
  predicate Sound(s: State, env: Setup, p: nat, id: string, d': Delivery, ev: Ev, taint: bool, completes: bool) {
    && Shaped(s, env) && p < |s.procs| && id in s.relay.store.deliveries && RecordAt(s, env, id)
    && ChangeBy(env, p, s.relay.store.deliveries[id], Hist(s, id), d', NextHistory(Hist(s, id), ev, taint))
    && RecordOK(env, d', NextHistory(Hist(s, id), ev, taint))
    && (completes <==> d'.state == Delivered)
    && (ev.Grant? && s.steady ==> ev.now <= s.clock)
  }

  lemma LoggedStep(s: State, t: State, env: Setup, p: nat, pc: PC, id: string, d': Delivery, ev: Ev, taint: bool,
                   completes: bool)
    requires Sane(env) && Inv(s, env) && Sound(s, env, p, id, d', ev, taint, completes)
    requires t == AfterLog(s, p, pc, id, d', ev, taint, completes) && ProcessAt(t, env, p)
    ensures Inv(t, env)
  {
    forall x ensures RecordAt(t, env, x) {
      assert RecordAt(s, env, x);
      LoggedRecord(s, env, p, pc, id, d', ev, taint, completes, x);
    }
    forall x, i ensures CompletionAt(t, env, x, i) {
      assert CompletionAt(s, env, x, i);
      LoggedCompletion(s, env, p, pc, id, d', ev, taint, completes, x, i);
    }
    forall q: nat | q < |t.procs| ensures ProcessAt(t, env, q) {
      assert ProcessAt(s, env, q);
      if q != p {
        LoggedProcess(s, env, p, q, pc, id, d', ev, taint, completes);
      }
    }
    LoggedConsistent(s, env, p, id, d', ev, taint, completes, t);
  }

  lemma LoggedConsistent(s: State, env: Setup, p: nat, id: string, d': Delivery, ev: Ev, taint: bool, completes: bool,
                         t: State)
    requires Store.Consistent(s.relay.store, env.idOf) && Sound(s, env, p, id, d', ev, taint, completes)
    requires t.relay.store == s.relay.store.(deliveries := s.relay.store.deliveries[id := d'])
    ensures Store.Consistent(t.relay.store, env.idOf)
  {
  }

  lemma LoggedRecord(s: State, env: Setup, p: nat, pc: PC, id: string, d': Delivery, ev: Ev, taint: bool,
                     completes: bool, x: string)
    requires Sound(s, env, p, id, d', ev, taint, completes) && RecordAt(s, env, x)
    ensures RecordAt(AfterLog(s, p, pc, id, d', ev, taint, completes), env, x)
  {
    AfterLogRecord(s, p, pc, id, d', ev, taint, completes, x, Hist(s, x).inc);
  }

  /** What a logged change leaves of one record. */
  lemma AfterLogRecord(s: State, p: nat, pc: PC, id: string, d': Delivery, ev: Ev, taint: bool, completes: bool,
                       x: string, inc: nat)
    requires p < |s.procs|
    ensures var t := AfterLog(s, p, pc, id, d', ev, taint, completes);
            && Lookup(t.relay.store.deliveries, x) ==
               (if x == id then Some(d') else Lookup(s.relay.store.deliveries, x))
            && Lookup(t.hist, x) == (if x == id then Some(NextHistory(Hist(s, id), ev, taint)) else Lookup(s.hist, x))
            && Lookup(t.completers, (x, inc)) ==
               (if completes && x == id && inc == Hist(s, id).inc then Some(p) else Lookup(s.completers, (x, inc)))
            && t.relay.journal == s.relay.journal && t.tags == s.tags && t.clock == s.clock && t.steady == s.steady
  {
  }

  lemma LoggedCompletion(s: State, env: Setup, p: nat, pc: PC, id: string, d': Delivery, ev: Ev, taint: bool,
                         completes: bool, x: string, i: nat)
    requires Sound(s, env, p, id, d', ev, taint, completes) && CompletionAt(s, env, x, i)
    ensures CompletionAt(AfterLog(s, p, pc, id, d', ev, taint, completes), env, x, i)
  {
  }

  lemma LoggedProcess(s: State, env: Setup, p: nat, q: nat, pc: PC, id: string, d': Delivery, ev: Ev,
                      taint: bool, completes: bool)
    requires Sane(env) && Sound(s, env, p, id, d', ev, taint, completes)
    requires q < |s.procs| && q != p && ProcessAt(s, env, q)
    ensures ProcessAt(AfterLog(s, p, pc, id, d', ev, taint, completes), env, q)
  {
    var (x, i) := About(env, s.procs[q]);
    var t := AfterLog(s, p, pc, id, d', ev, taint, completes);
    AfterLogRecord(s, p, pc, id, d', ev, taint, completes, x, i);
    var n := Deliveries(s.relay.journal, s.tags, x, i);
    if x == id {
      assert (id, Hist(s, id).inc) !in s.completers;
      ChangeKeepsProcess(env, p, q, s.procs[q], s.relay.store.deliveries[id], Hist(s, id), d',
                         NextHistory(Hist(s, id), ev, taint),
                         Lookup(s.completers, (x, i)), Lookup(t.completers, (x, i)), n, s.clock, s.steady);
    }
  }

  lemma ChangeKeepsProcess(env: Setup, p: nat, q: nat, pc: PC, d: Delivery, h: History, d': Delivery, h': History,
                           completer: Option<nat>, completer': Option<nat>, n: nat, clock: Time, steady: bool)
    requires Sane(env) && ChangeBy(env, p, d, h, d', h') && q != p
    requires completer == completer' || completer.None?
    requires ProcessOK(env, q, pc, Some(d), h, completer, n, clock, steady)
    ensures ProcessOK(env, q, pc, Some(d'), h', completer', n, clock, steady)
  {
    match pc
    case AtAllow(job) => ChangeKeepsHolding(env, p, q, job, d, h, d', h', clock, steady);
    case AtSend(job) => ChangeKeepsHolding(env, p, q, job, d, h, d', h', clock, steady);
    case AtRelease(job, _) => ChangeKeepsHolding(env, p, q, job, d, h, d', h', clock, steady);
    case AtComplete(job) => ChangeKeepsHolding(env, p, q, job, d, h, d', h', clock, steady);
    case AtDead(job, _) => ChangeKeepsHolding(env, p, q, job, d, h, d', h', clock, steady);
    case AtRetry(job, _, _) => ChangeKeepsHolding(env, p, q, job, d, h, d', h', clock, steady);
    case AtJournalDead(job) => ChangeKeepsBurying(env, p, q, job, d, h, d', h');
    case AtRevive(job) => ChangeKeepsBurying(env, p, q, job, d, h, d', h');
    case _ =>
  }

  // ---------- The calls that change one delivery ----------

  lemma AcquireSound(s: State, env: Setup, p: nat, forced: bool, id: string, now: Time, d': Delivery)
    requires Sane(env) && Shaped(s, env) && p < |s.procs| && RecordAt(s, env, id) && ProcessAt(s, env, p)
    requires s.procs[p] == AtAcquire(forced, id, now)
    requires Store.Acquired(s.relay.store, id, env.workers[p].id, now, env.workers[p].ttl) == Ok(d')
    ensures Sound(s, env, p, id, d', Grant(p, d'.leaseEpoch, now, now + env.workers[p].ttl), false, false)
  {
    GrantKeepsRecord(env, s.relay.store.deliveries[id], Hist(s, id), p, now);
  }

  lemma AcquireLogs(s: State, env: Setup, p: nat, forced: bool, id: string, now: Time, d': Delivery)
    requires Sane(env) && Shaped(s, env) && p < |s.procs| && RecordAt(s, env, id) && ProcessAt(s, env, p)
    requires s.procs[p] == AtAcquire(forced, id, now)
    requires Store.Acquired(s.relay.store, id, env.workers[p].id, now, env.workers[p].ttl) == Ok(d')
    ensures var ev := Grant(p, d'.leaseEpoch, now, now + env.workers[p].ttl);
            var t := Acquire(s, env.workers[p], p, forced, id, now);
            && t == AfterLog(s, p, AtAllow(Job(forced, id, now, d', Hist(s, id).inc)), id, d', ev, false, false)
            && ProcessAt(t, env, p)
  {
    AcquireSound(s, env, p, forced, id, now, d');
  }

  lemma AcquireGranted(s: State, env: Setup, p: nat, forced: bool, id: string, now: Time, d': Delivery)
    requires Sane(env) && Inv(s, env) && p < |s.procs| && s.procs[p] == AtAcquire(forced, id, now)
    requires Store.Acquired(s.relay.store, id, env.workers[p].id, now, env.workers[p].ttl) == Ok(d')
    ensures Inv(Acquire(s, env.workers[p], p, forced, id, now), env)
  {
    assert ProcessAt(s, env, p) && RecordAt(s, env, id);
    AcquireSound(s, env, p, forced, id, now, d');
    AcquireLogs(s, env, p, forced, id, now, d');
    LoggedStep(s, Acquire(s, env.workers[p], p, forced, id, now), env, p,
               AtAllow(Job(forced, id, now, d', Hist(s, id).inc)),
               id, d', Grant(p, d'.leaseEpoch, now, now + env.workers[p].ttl), false, false);
  }

  lemma AcquireStep(s: State, env: Setup, p: nat, forced: bool, id: string, now: Time)
    requires Sane(env) && Inv(s, env) && p < |s.procs| && s.procs[p] == AtAcquire(forced, id, now)
    ensures Inv(Acquire(s, env.workers[p], p, forced, id, now), env)
  {
    match Store.Acquired(s.relay.store, id, env.workers[p].id, now, env.workers[p].ttl)
    case Err(_) => QuietStep(s, Acquire(s, env.workers[p], p, forced, id, now), env, p, Idle);
    case Ok(d') => AcquireGranted(s, env, p, forced, id, now, d');
  }

  /** If process `p` still holds the lease, the delivery is the one it acquired. */
  lemma StillHeld(s: State, env: Setup, p: nat, job: Job)
    requires Shaped(s, env) && p < |s.procs| && RecordAt(s, env, job.id) && ProcessAt(s, env, p)
    requires s.procs[p] == AtComplete(job) || (s.procs[p].AtDead? && s.procs[p].job == job)
             || (s.procs[p].AtRetry? && s.procs[p].job == job)
    requires Store.Holds(s.relay.store, job.id, env.workers[p].id, job.lease.leaseEpoch)
    ensures var h := Hist(s, job.id);
            && 1 <= job.inc == h.inc
            && HeldBy(env, s.relay.store.deliveries[job.id], p, job)
            && RecordOK(env, s.relay.store.deliveries[job.id], h)
            && (job.id, job.inc) !in s.completers
    ensures s.procs[p].AtRetry? && !s.procs[p].deferred ==> job.lease.attempt + 1 < env.workers[p].maxAttempts
  {
  }

  lemma CompleteSound(s: State, env: Setup, p: nat, job: Job, d': Delivery)
    requires Sane(env) && Shaped(s, env) && p < |s.procs| && RecordAt(s, env, job.id) && ProcessAt(s, env, p)
    requires CompletionAt(s, env, job.id, job.inc) && s.procs[p] == AtComplete(job)
    requires Store.Completed(s.relay.store, job.id, env.workers[p].id, job.lease.leaseEpoch) == Ok(d')
    ensures var ev := Settle(p, job.lease.leaseEpoch, Completed);
            && Sound(s, env, p, job.id, d', ev, false, true)
            && Complete(s, env.workers[p], p, job) ==
               AfterLog(s, p, AtJournalDelivered(job), job.id, d', ev, false, true)
            && ProcessAt(Complete(s, env.workers[p], p, job), env, p)
  {
    StillHeld(s, env, p, job);
    CompleteKeepsRecord(env, s.relay.store.deliveries[job.id], Hist(s, job.id), p, job);
  }

  lemma CompleteStep(s: State, env: Setup, p: nat, job: Job)
    requires Sane(env) && Inv(s, env) && p < |s.procs| && s.procs[p] == AtComplete(job)
    ensures Inv(Complete(s, env.workers[p], p, job), env)
  {
    var w := env.workers[p];
    assert ProcessAt(s, env, p) && RecordAt(s, env, job.id) && CompletionAt(s, env, job.id, job.inc);
    match Store.Completed(s.relay.store, job.id, w.id, job.lease.leaseEpoch)
    case Err(_) => QuietStep(s, Complete(s, w, p, job), env, p, Idle);
    case Ok(d') =>
      CompleteSound(s, env, p, job, d');
      LoggedStep(s, Complete(s, w, p, job), env, p, AtJournalDelivered(job), job.id, d',
                 Settle(p, job.lease.leaseEpoch, Completed), false, true);
  }

  lemma KillSound(s: State, env: Setup, p: nat, job: Job, cause: Error, d': Delivery)
    requires Sane(env) && Shaped(s, env) && p < |s.procs| && RecordAt(s, env, job.id) && ProcessAt(s, env, p)
    requires s.procs[p] == AtDead(job, cause)
    requires Store.Died(s.relay.store, job.id, env.workers[p].id, job.lease.leaseEpoch, cause) == Ok(d')
    ensures var ev := Settle(p, job.lease.leaseEpoch, Died);
            && Sound(s, env, p, job.id, d', ev, false, false)
            && Kill(s, env.workers[p], p, job, cause) ==
               AfterLog(s, p, AtJournalDead(job), job.id, d', ev, false, false)
            && ProcessAt(Kill(s, env.workers[p], p, job, cause), env, p)
  {
    StillHeld(s, env, p, job);
    DeathKeepsRecord(env, s.relay.store.deliveries[job.id], Hist(s, job.id), p, job, cause);
  }

  lemma KillStep(s: State, env: Setup, p: nat, job: Job, cause: Error)
    requires Sane(env) && Inv(s, env) && p < |s.procs| && s.procs[p] == AtDead(job, cause)
    ensures Inv(Kill(s, env.workers[p], p, job, cause), env)
  {
    var w := env.workers[p];
    assert ProcessAt(s, env, p) && RecordAt(s, env, job.id);
    match Store.Died(s.relay.store, job.id, w.id, job.lease.leaseEpoch, cause)
    case Err(_) => QuietStep(s, Kill(s, w, p, job, cause), env, p, Idle);
    case Ok(d') =>
      KillSound(s, env, p, job, cause, d');
      LoggedStep(s, Kill(s, w, p, job, cause), env, p, AtJournalDead(job), job.id, d',
                 Settle(p, job.lease.leaseEpoch, Died), false, false);
  }

  function AfterRetry(job: Job, deferred: bool, ready: Time): PC {
    if deferred then AtSchedule(job.id, ready) else AtJournalPending(job, ready)
  }

  lemma GiveBackSound(s: State, env: Setup, p: nat, job: Job, cause: Error, deferred: bool, d': Delivery)
    requires Sane(env) && Shaped(s, env) && p < |s.procs| && RecordAt(s, env, job.id) && ProcessAt(s, env, p)
    requires s.procs[p] == AtRetry(job, cause, deferred)
    requires Store.Retried(s.relay.store, job.id, env.workers[p].id, job.lease.leaseEpoch, RetryAt(job, deferred),
                           cause) == Ok(d')
    ensures var ev := Settle(p, job.lease.leaseEpoch, if deferred then Postponed else Failed);
            Sound(s, env, p, job.id, d', ev, false, false)
    ensures d'.nextAttempt > s.relay.store.deliveries[job.id].nextAttempt
  {
    StillHeld(s, env, p, job);
    RetryKeepsRecord(env, s.relay.store.deliveries[job.id], Hist(s, job.id), p, job, cause, deferred);
  }

  lemma GiveBackLogs(s: State, env: Setup, p: nat, job: Job, cause: Error, deferred: bool, d': Delivery)
    requires Shaped(s, env) && p < |s.procs|
    requires s.procs[p] == AtRetry(job, cause, deferred)
    requires Store.Retried(s.relay.store, job.id, env.workers[p].id, job.lease.leaseEpoch, RetryAt(job, deferred),
                           cause) == Ok(d')
    ensures var ev := Settle(p, job.lease.leaseEpoch, if deferred then Postponed else Failed);
            var t := GiveBack(s, env.workers[p], p, job, cause, deferred);
            && t == AfterLog(s, p, AfterRetry(job, deferred, d'.nextAttempt), job.id, d', ev, false, false)
            && ProcessAt(t, env, p)
  {
  }

  lemma GiveBackStep(s: State, env: Setup, p: nat, job: Job, cause: Error, deferred: bool)
    requires Sane(env) && Inv(s, env) && p < |s.procs| && s.procs[p] == AtRetry(job, cause, deferred)
    ensures Inv(GiveBack(s, env.workers[p], p, job, cause, deferred), env)
  {
    var w := env.workers[p];
    assert ProcessAt(s, env, p) && RecordAt(s, env, job.id);
    match Store.Retried(s.relay.store, job.id, w.id, job.lease.leaseEpoch, RetryAt(job, deferred), cause)
    case Err(_) => QuietStep(s, GiveBack(s, w, p, job, cause, deferred), env, p, Idle);
    case Ok(d') =>
      GiveBackSound(s, env, p, job, cause, deferred, d');
      GiveBackLogs(s, env, p, job, cause, deferred, d');
      LoggedStep(s, GiveBack(s, w, p, job, cause, deferred), env, p, AfterRetry(job, deferred, d'.nextAttempt), job.id,
                 d', Settle(p, job.lease.leaseEpoch, if deferred then Postponed else Failed), false, false);
  }

  lemma ReviveSound(s: State, env: Setup, p: nat, job: Job, d': Delivery)
    requires Sane(env) && Shaped(s, env) && p < |s.procs| && RecordAt(s, env, job.id) && ProcessAt(s, env, p)
    requires s.procs[p] == AtRevive(job) && Store.Revived(s.relay.store, job.id, job.now + SECOND) == Ok(d')
    ensures var taint := job.inc != Hist(s, job.id).inc;
            && Sound(s, env, p, job.id, d', Revive(p), taint, false)
            && ReviveDead(s, p, job) ==
               AfterLog(s, p, AtSchedule(job.id, d'.nextAttempt), job.id, d', Revive(p), taint, false)
            && ProcessAt(ReviveDead(s, p, job), env, p)
    ensures !Hist(s, job.id).tainted && job.inc == Hist(s, job.id).inc ==>
              d'.nextAttempt > s.relay.store.deliveries[job.id].nextAttempt
  {
    RevivalKeepsRecord(env, s.relay.store.deliveries[job.id], Hist(s, job.id), p, job);
  }

  lemma ReviveStep(s: State, env: Setup, p: nat, job: Job)
    requires Sane(env) && Inv(s, env) && p < |s.procs| && s.procs[p] == AtRevive(job)
    ensures Inv(ReviveDead(s, p, job), env)
  {
    assert ProcessAt(s, env, p) && RecordAt(s, env, job.id);
    match Store.Revived(s.relay.store, job.id, job.now + SECOND)
    case Err(_) => QuietStep(s, ReviveDead(s, p, job), env, p, Idle);
    case Ok(d') =>
      ReviveSound(s, env, p, job, d');
      LoggedStep(s, ReviveDead(s, p, job), env, p, AtSchedule(job.id, d'.nextAttempt), job.id, d', Revive(p),
                 job.inc != Hist(s, job.id).inc, false);
  }

  // ---------- Journal entries ----------

  /** Only the process that completed an incarnation writes its Delivered entry, and only once. */
  predicate Entitled(s: State, env: Setup, p: nat, id: string, transition: DeliveryState, inc: nat)
    requires Shaped(s, env)
  {
    transition == Delivered ==>
      Lookup(s.completers, (id, inc)) == Some(p) && Deliveries(s.relay.journal, s.tags, id, inc) == 0
  }

  lemma WrittenProcess(s: State, env: Setup, p: nat, q: nat, pc: PC, id: string, event: Event,
                       transition: DeliveryState, at: Time, inc: nat)
    requires Shaped(s, env) && p < |s.procs| && q < |s.procs| && q != p && ProcessAt(s, env, q)
    requires Entitled(s, env, p, id, transition, inc)
    ensures ProcessAt(Moved(Written(s, false, id, event, transition, at, inc), p, pc), env, q)
  {
    var (x, i) := About(env, s.procs[q]);
    DeliveriesGrow(s.relay.journal, s.tags, id, event, transition, at, inc, x, i);
  }

  lemma WrittenCompletion(s: State, env: Setup, p: nat, pc: PC, id: string, event: Event,
                          transition: DeliveryState, at: Time, inc: nat, x: string, i: nat)
    requires Shaped(s, env) && p < |s.procs| && CompletionAt(s, env, x, i)
    requires Entitled(s, env, p, id, transition, inc)
    ensures CompletionAt(Moved(Written(s, false, id, event, transition, at, inc), p, pc), env, x, i)
  {
    DeliveriesGrow(s.relay.journal, s.tags, id, event, transition, at, inc, x, i);
  }

  lemma JournalStep(s: State, env: Setup, p: nat, pc: PC, reject: bool, id: string, event: Event,
                    transition: DeliveryState, at: Time, inc: nat)
    requires Inv(s, env) && p < |s.procs| && Entitled(s, env, p, id, transition, inc)
    requires !pc.AtJournalDelivered? && ProcessAt(Moved(s, p, pc), env, p)
    ensures Inv(Moved(Written(s, reject, id, event, transition, at, inc), p, pc), env)
  {
    var t := Moved(Written(s, reject, id, event, transition, at, inc), p, pc);
    if reject {
      QuietStep(s, t, env, p, pc);
    } else {
      forall x ensures RecordAt(t, env, x) { assert RecordAt(s, env, x); }
      forall x, i ensures CompletionAt(t, env, x, i) {
        assert CompletionAt(s, env, x, i);
        WrittenCompletion(s, env, p, pc, id, event, transition, at, inc, x, i);
      }
      forall q: nat | q < |t.procs| && q != p ensures ProcessAt(t, env, q) {
        assert ProcessAt(s, env, q);
        WrittenProcess(s, env, p, q, pc, id, event, transition, at, inc);
      }
    }
  }

  // ---------- Admission ----------

  lemma ReservedProcess(s: State, env: Setup, p: nat, event: Event, now: Time, q: nat)
    requires Shaped(s, env) && p < |s.procs| && q < |s.procs| && ProcessAt(s, env, q)
    requires event.key !in s.relay.store.reserved && env.idOf(event.key) !in s.relay.store.deliveries
    ensures ProcessAt(Reserve(s, env, p, event, now), env, q)
  {
  }

  lemma ReservedRecord(s: State, env: Setup, p: nat, event: Event, now: Time, x: string)
    requires Shaped(s, env) && p < |s.procs| && RecordAt(s, env, x)
    requires CompletionAt(s, env, env.idOf(event.key), Hist(s, env.idOf(event.key)).inc + 1)
    ensures RecordAt(Reserve(s, env, p, event, now), env, x)
  {
    var id := env.idOf(event.key);
    if x == id && event.key !in s.relay.store.reserved {
      ReserveStartsRecord(env, id, event, now, Hist(s, id).inc + 1);
      ReservedAnew(s, env, p, event, now);
    } else {
      OthersUnreserved(s, env, p, event, now, x);
    }
  }

  lemma ReservedAnew(s: State, env: Setup, p: nat, event: Event, now: Time)
    requires p < |s.procs| && event.key !in s.relay.store.reserved
    ensures var t, id := Reserve(s, env, p, event, now), env.idOf(event.key);
            && Lookup(t.relay.store.deliveries, id) == Some(Delivery(id, event, Pending, 0, now, "", 0, None, ""))
            && Lookup(t.hist, id) == Some(History(Hist(s, id).inc + 1, now, [], false))
            && t.completers == s.completers && t.clock == s.clock && t.steady == s.steady
  {
  }

  lemma OthersUnreserved(s: State, env: Setup, p: nat, event: Event, now: Time, x: string)
    requires p < |s.procs| && (x != env.idOf(event.key) || event.key in s.relay.store.reserved)
    ensures var t := Reserve(s, env, p, event, now);
            && Lookup(t.relay.store.deliveries, x) == Lookup(s.relay.store.deliveries, x)
            && Lookup(t.hist, x) == Lookup(s.hist, x)
            && t.completers == s.completers && t.clock == s.clock && t.steady == s.steady
  {
  }

  lemma ReserveStep(s: State, env: Setup, p: nat, event: Event, now: Time)
    requires Sane(env) && Inv(s, env) && p < |s.procs| && s.procs[p] == AtReserve(event, now)
    ensures Inv(Reserve(s, env, p, event, now), env)
  {
    var id := env.idOf(event.key);
    var t := Reserve(s, env, p, event, now);
    if event.key in s.relay.store.reserved {
      QuietStep(s, t, env, p, Idle);
    } else {
      Store.UnreservedIsAbsent(s.relay.store, env.idOf, event.key);
      assert CompletionAt(s, env, id, Hist(s, id).inc + 1);
      forall x ensures RecordAt(t, env, x) {
        assert RecordAt(s, env, x);
        ReservedRecord(s, env, p, event, now, x);
      }
      forall x, i ensures CompletionAt(t, env, x, i) { assert CompletionAt(s, env, x, i); }
      forall q: nat | q < |t.procs| ensures ProcessAt(t, env, q) {
        assert ProcessAt(s, env, q);
        ReservedProcess(s, env, p, event, now, q);
      }
      ReserveConsistent(s.relay.store, env.idOf, event, now);
    }
  }

  lemma ReserveConsistent(s: Store.State, idOf: string -> string, event: Event, now: Time)
    requires Store.Consistent(s, idOf) && event.key !in s.reserved && idOf(event.key) !in s.deliveries
    ensures Store.Consistent(Store.Reserved(s, event, idOf(event.key), now).0, idOf)
  {
  }

  lemma RolledBackProcess(s: State, env: Setup, p: nat, pc: PC, q: nat)
    requires Shaped(s, env) && p < |s.procs| && q < |s.procs| && ProcessAt(s, env, q) && pc.AtRollback?
    ensures ProcessAt(Rollback(s, env, p, pc), env, q)
  {
  }

  lemma RollbackStep(s: State, env: Setup, p: nat, pc: PC)
    requires Sane(env) && Inv(s, env) && p < |s.procs| && s.procs[p] == pc && pc.AtRollback?
    ensures Inv(Rollback(s, env, p, pc), env)
  {
    var t := Rollback(s, env, p, pc);
    forall x ensures RecordAt(t, env, x) { assert RecordAt(s, env, x); }
    forall x, i ensures CompletionAt(t, env, x, i) { assert CompletionAt(s, env, x, i); }
    forall q: nat | q < |t.procs| ensures ProcessAt(t, env, q) {
      assert ProcessAt(s, env, q);
      RolledBackProcess(s, env, p, pc, q);
    }
    RollbackConsistent(s.relay.store, env.idOf, pc.event.key);
  }

  lemma RollbackConsistent(s: Store.State, idOf: string -> string, key: string)
    requires Store.Consistent(s, idOf) && Injective(idOf)
    ensures Store.Consistent(Store.RolledBack(s, key, idOf(key)), idOf)
  {
    if key !in s.reserved {
      Store.UnreservedIsAbsent(s, idOf, key);
    }
  }

  // ---------- Every action ----------

  predicate Quiet(pc: PC) {
    pc.AtPop? || pc.AtAllow? || pc.AtSend? || pc.AtRelease? || pc.AtSchedule? || pc.AtEnqueue?
  }

  predicate AdvancesQuietly(s: State, env: Setup, p: nat, t: State)
    requires Shaped(s, env) && p < |s.procs|
  {
    SameRecords(s, t) && |t.procs| == |s.procs| && t.procs == s.procs[p := t.procs[p]]
    && ProcessAt(Moved(s, p, t.procs[p]), env, p)
  }

  lemma ReleaseQuietly(s: State, env: Setup, p: nat, job: Job, failure: Option<string>)
    requires Shaped(s, env) && p < |s.procs| && ProcessAt(s, env, p) && s.procs[p] == AtRelease(job, failure)
    ensures AdvancesQuietly(s, env, p, Release(s, env, env.workers[p], p, job, failure))
  {
  }

  lemma PopQuietly(s: State, env: Setup, p: nat, now: Time, next: Option<string>)
    requires Shaped(s, env) && p < |s.procs| && ProcessAt(s, env, p) && s.procs[p] == AtPop(now)
    ensures AdvancesQuietly(s, env, p, Pop(s, p, now, next))
  {
    assert Moved(s, p, s.procs[p]).procs == s.procs;
  }

  lemma AllowQuietly(s: State, env: Setup, p: nat, job: Job)
    requires Shaped(s, env) && p < |s.procs| && ProcessAt(s, env, p) && s.procs[p] == AtAllow(job)
    ensures AdvancesQuietly(s, env, p, Allow(s, p, job))
  {
  }

  lemma ScheduleQuietly(s: State, env: Setup, p: nat, id: string, ready: Time, pc: PC)
    requires Shaped(s, env) && p < |s.procs| && (pc == Idle || pc.AtRollback?)
    ensures AdvancesQuietly(s, env, p, Moved(s.(relay := WithSchedule(s.relay, env.config, id, ready)), p, pc))
  {
  }

  lemma QuietlyAdvances(s: State, env: Setup, p: nat, next: Option<string>, failure: Option<string>, reject: bool)
    requires Shaped(s, env) && p < |s.procs| && ProcessAt(s, env, p) && Quiet(s.procs[p])
    ensures AdvancesQuietly(s, env, p, Advance(s, env, env.workers[p], p, next, failure, reject))
  {
    match s.procs[p]
    case AtPop(now) => PopQuietly(s, env, p, now, next);
    case AtRelease(job, f) => ReleaseQuietly(s, env, p, job, f);
    case AtAllow(job) => AllowQuietly(s, env, p, job);
    case AtSend(job) =>
    case AtSchedule(id, ready) => ScheduleQuietly(s, env, p, id, ready, Idle);
    case AtEnqueue(event, now, inc) =>
      var id := env.idOf(event.key);
      ScheduleQuietly(s, env, p, id, now,
                      if ScheduleError(s.relay, env.config, id, now).None? then Idle
                      else AtRollback(event, now, inc, true));
  }

  lemma AdvanceKeeps(s: State, env: Setup, p: nat, next: Option<string>, failure: Option<string>, reject: bool)
    requires Sane(env) && Inv(s, env) && p < |s.procs|
    ensures Inv(Advance(s, env, env.workers[p], p, next, failure, reject), env)
  {
    assert ProcessAt(s, env, p);
    if Quiet(s.procs[p]) {
      var t := Advance(s, env, env.workers[p], p, next, failure, reject);
      QuietlyAdvances(s, env, p, next, failure, reject);
      QuietStep(s, t, env, p, t.procs[p]);
    } else if s.procs[p].AtJournalDelivered? || s.procs[p].AtJournalDead? || s.procs[p].AtJournalPending?
              || s.procs[p].AtAdmit? || s.procs[p].AtJournalUndo? {
      AdvanceJournal(s, env, p, next, failure, reject);
    } else {
      match s.procs[p]
      case Idle =>
      case AtAcquire(forced, id, now) => AcquireStep(s, env, p, forced, id, now);
      case AtComplete(job) => CompleteStep(s, env, p, job);
      case AtDead(job, cause) => KillStep(s, env, p, job, cause);
      case AtRevive(job) => ReviveStep(s, env, p, job);
      case AtRetry(job, cause, deferred) => GiveBackStep(s, env, p, job, cause, deferred);
      case AtReserve(event, now) => ReserveStep(s, env, p, event, now);
      case AtRollback(_, _, _, _) => RollbackStep(s, env, p, s.procs[p]);
    }
  }

  lemma AdvanceJournal(s: State, env: Setup, p: nat, next: Option<string>, failure: Option<string>, reject: bool)
    requires Sane(env) && Inv(s, env) && p < |s.procs| && ProcessAt(s, env, p)
    requires s.procs[p].AtJournalDelivered? || s.procs[p].AtJournalDead? || s.procs[p].AtJournalPending?
             || s.procs[p].AtAdmit? || s.procs[p].AtJournalUndo?
    ensures Inv(Advance(s, env, env.workers[p], p, next, failure, reject), env)
  {
    if s.procs[p].AtAdmit? || s.procs[p].AtJournalUndo? {
      var event, now, inc := s.procs[p].event, s.procs[p].now, s.procs[p].inc;
      if s.procs[p].AtAdmit? {
        JournalStep(s, env, p,
                    if reject then AtRollback(event, now, inc, false) else AtEnqueue(event, now, inc), reject,
                    env.idOf(event.key), event, Pending, now, inc);
      } else {
        JournalStep(s, env, p, Idle, reject, env.idOf(event.key), event, Dead, now, inc);
      }
    } else {
      AdvanceWorkerJournal(s, env, p, next, failure, reject);
    }
  }

  lemma AdvanceWorkerJournal(s: State, env: Setup, p: nat, next: Option<string>, failure: Option<string>, reject: bool)
    requires Sane(env) && Inv(s, env) && p < |s.procs| && ProcessAt(s, env, p)
    requires s.procs[p].AtJournalDelivered? || s.procs[p].AtJournalDead? || s.procs[p].AtJournalPending?
    ensures Inv(Advance(s, env, env.workers[p], p, next, failure, reject), env)
  {
    match s.procs[p]
    case AtJournalDelivered(job) =>
      JournalStep(s, env, p, Idle, reject, job.id, job.lease.event, Delivered, job.now, job.inc);
    case AtJournalDead(job) =>
      JournalStep(s, env, p, if reject then AtRevive(job) else Idle, reject,
                  job.id, job.lease.event, Dead, job.now, job.inc);
    case AtJournalPending(job, ready) =>
      JournalStep(s, env, p, if reject then Idle else AtSchedule(job.id, ready), reject,
                  job.id, job.lease.event, Pending, job.now, job.inc);
  }

  lemma ExecKeeps(s: State, env: Setup, a: Action)
    requires Sane(env) && Inv(s, env)
    ensures Inv(Exec(s, env, a), env)
  {
    var t := Exec(s, env, a);
    match a
    case Tick(to) => TickStep(s, env, to);
    case BeginStep(p) => if Resting(s, p) { QuietStep(s, t, env, p, t.procs[p]); }
    case BeginStepFor(p, _) => if Resting(s, p) { QuietStep(s, t, env, p, t.procs[p]); }
    case BeginSubmit(p, event) => if Resting(s, p) && event.Valid() { QuietStep(s, t, env, p, t.procs[p]); }
    case Go(p, next, failure, reject) =>
      if p < |s.procs| && p < |env.workers| { AdvanceKeeps(s, env, p, next, failure, reject); }
    case QueueElsewhere(_, _) => OutsideStep(s, t, env);
    case PopElsewhere(_) => OutsideStep(s, t, env);
    case ResetCircuit(_) => OutsideStep(s, t, env);
  }

  lemma {:induction false} RunKeeps(s: State, env: Setup, actions: seq<Action>)
    requires Sane(env) && Inv(s, env)
    ensures Inv(RunFrom(s, env, actions), env)
  {
    if actions != [] {
      RunKeeps(s, env, actions[..|actions| - 1]);
      ExecKeeps(RunFrom(s, env, actions[..|actions| - 1]), env, actions[|actions| - 1]);
    }
  }

  lemma InitiallyInv(env: Setup, clock: Time)
    ensures Inv(Initial(|env.workers|, clock), env)
  {
  }
}
