/** What every interleaving keeps. */
module LeaseInvariant {
  import opened Core
  import Store
  import Journal
  import opened Transactions
  import opened Interleaving
  import opened LeaseLog

  /** Ids do not collide, workers have distinct names, and none tries more than `maxAttempts` times. */
  ghost predicate Sane(env: Setup) {
    && Injective(env.idOf)
    && (forall p, q | 0 <= p < q < |env.workers| :: env.workers[p].id != env.workers[q].id)
    && (forall p | 0 <= p < |env.workers| :: env.workers[p].maxAttempts <= env.maxAttempts)
  }

  function Max(a: int, b: int): int {
    if a > b then a else b
  }

  // ---------- One delivery and its history ----------

  predicate EndsLike(env: Setup, d: Delivery, log: seq<Ev>) {
    match d.state
    case Pending =>
      log == [] || log[|log| - 1].Revive? || (log[|log| - 1].Settle? && log[|log| - 1].verdict in {Failed, Postponed})
    case Leased =>
      && log != [] && var e := log[|log| - 1];
      && e.Grant? && e.epoch == d.leaseEpoch && d.leaseUntil == Some(e.until)
      && e.proc < |env.workers| && env.workers[e.proc].id == d.leaseOwner
    case Delivered => log != [] && log[|log| - 1].Settle? && log[|log| - 1].verdict == Completed
    case Dead => log != [] && log[|log| - 1].Settle? && log[|log| - 1].verdict == Died
  }

  predicate Tallied(env: Setup, d: Delivery, log: seq<Ev>) {
    && d.leaseEpoch == Count(log, Grants)
    && d.attempt == Attempts(log)
    && d.attempt + (if d.state == Leased || d.state == Delivered then 1 else 0) <= d.leaseEpoch
    && Count(log, Deaths) == Count(log, Revivals) + (if d.state == Dead then 1 else 0)
    && Count(log, Failures) <= Max(0, env.maxAttempts - 1)
  }

  predicate Spaced(d: Delivery, h: History) {
    && WellSpaced(h.log, h.reservedAt)
    && (d.attempt <= 30 ==> Spacing(h.reservedAt, Count(h.log, Failures)) <= d.nextAttempt)
  }

  predicate RecordOK(env: Setup, d: Delivery, h: History) {
    && h.inc >= 1 && (h.inc == 1 ==> !h.tainted)
    && WellLogged(h.log) && EndsLike(env, d, h.log) && Tallied(env, d, h.log)
    && (!h.tainted ==> Spaced(d, h))
  }

  /** Settling a held lease: `d` is the delivery before, `job` the lease in the settler's hands. */
  predicate HeldBy(env: Setup, d: Delivery, p: nat, job: Job) {
    p < |env.workers| && d.state == Leased && d.leaseOwner == env.workers[p].id && d == job.lease
    && d.nextAttempt <= job.now
  }

  /** After one more event, what is left to show is that the new NextAttempt is late enough. */
  lemma SpacedNext(d: Delivery, h: History, d': Delivery, e: Ev, taint: bool)
    requires Spaced(d, h)
    requires e.Grant? ==> d.attempt == Attempts(h.log) && d.nextAttempt <= e.now
    ensures var failures := Count(h.log, Failures) + if Is(e, Failures) then 1 else 0;
            Spaced(d', h.(log := h.log + [e], tainted := taint)) <==>
            (d'.attempt <= 30 ==> Spacing(h.reservedAt, failures) <= d'.nextAttempt)
  {
    SpacingGrows(h.log, e, h.reservedAt);
    LogGrows(h.log, e);
  }

  /** One more failed send doubles the spacing, and the backoff makes up for it. */
  lemma BackoffCoversSpacing(reservedAt: Time, failures: nat, attempt: nat, now: Time)
    requires failures <= attempt < 30 && Spacing(reservedAt, failures) <= now
    ensures Spacing(reservedAt, failures + 1) <= now + BackoffFor(attempt)
  {
    Pow2Monotone(failures, attempt);
  }

  lemma RetryOnTime(reservedAt: Time, failures: nat, attempt: nat, job: Job, deferred: bool)
    requires failures <= attempt == job.lease.attempt
    requires attempt <= 30 ==> Spacing(reservedAt, failures) <= job.now
    ensures attempt + 1 <= 30 ==>
              Spacing(reservedAt, if deferred then failures else failures + 1) <= RetryAt(job, deferred)
  {
    if attempt < 30 && !deferred {
      BackoffCoversSpacing(reservedAt, failures, attempt, job.now);
    }
  }

  lemma RetrySpaced(d: Delivery, h: History, d': Delivery, p: nat, job: Job, deferred: bool)
    requires Spaced(d, h) && d.attempt == Attempts(h.log) && d == job.lease && d.nextAttempt <= job.now
    requires d'.attempt == d.attempt + 1 && d'.nextAttempt == RetryAt(job, deferred)
    ensures Spaced(d', h.(log := h.log + [Settle(p, d.leaseEpoch, if deferred then Postponed else Failed)]))
  {
    var e := Settle(p, d.leaseEpoch, if deferred then Postponed else Failed);
    RetryOnTime(h.reservedAt, Count(h.log, Failures), d.attempt, job, deferred);
    SpacedNext(d, h, d', e, h.tainted);
  }

  lemma GrantKeepsTally(env: Setup, d: Delivery, log: seq<Ev>, d': Delivery, e: Ev)
    requires WellLogged(log) && EndsLike(env, d, log) && Tallied(env, d, log) && !d.Terminal()
    requires e.Grant? && e.proc < |env.workers| && e.epoch == d.leaseEpoch + 1
    requires d.state == Leased ==> !After(d.leaseUntil, e.now)
    requires d' == d.(state := Leased, leaseOwner := env.workers[e.proc].id, leaseEpoch := e.epoch,
                      leaseUntil := Some(e.until))
    ensures WellLogged(log + [e]) && EndsLike(env, d', log + [e]) && Tallied(env, d', log + [e])
  {
    LogGrows(log, e);
  }

  lemma GrantKeepsRecord(env: Setup, d: Delivery, h: History, p: nat, now: Time)
    requires RecordOK(env, d, h) && p < |env.workers|
    requires !d.Terminal() && d.nextAttempt <= now && (d.state == Leased ==> !After(d.leaseUntil, now))
    ensures var w := env.workers[p];
            var d' := d.(state := Leased, leaseOwner := w.id, leaseEpoch := d.leaseEpoch + 1,
                         leaseUntil := Some(now + w.ttl));
            RecordOK(env, d', h.(log := h.log + [Grant(p, d'.leaseEpoch, now, now + w.ttl)]))
  {
    var w := env.workers[p];
    var e := Grant(p, d.leaseEpoch + 1, now, now + w.ttl);
    var d' := d.(state := Leased, leaseOwner := w.id, leaseEpoch := e.epoch, leaseUntil := Some(e.until));
    GrantKeepsTally(env, d, h.log, d', e);
    if !h.tainted {
      SpacedNext(d, h, d', e, h.tainted);
    }
  }

  lemma GrantedTo(env: Setup, d: Delivery, h: History, p: nat, job: Job)
    requires Sane(env) && RecordOK(env, d, h) && HeldBy(env, d, p, job)
    ensures h.log != [] && h.log[|h.log| - 1].Grant?
    ensures h.log[|h.log| - 1].proc == p && h.log[|h.log| - 1].epoch == d.leaseEpoch
  {
  }

  lemma CompleteKeepsRecord(env: Setup, d: Delivery, h: History, p: nat, job: Job)
    requires Sane(env) && RecordOK(env, d, h) && HeldBy(env, d, p, job)
    ensures RecordOK(env, d.(state := Delivered, leaseOwner := "", leaseUntil := None),
                     h.(log := h.log + [Settle(p, d.leaseEpoch, Completed)]))
  {
    GrantedTo(env, d, h, p, job);
    LogGrows(h.log, Settle(p, d.leaseEpoch, Completed));
    SpacingGrows(h.log, Settle(p, d.leaseEpoch, Completed), h.reservedAt);
  }

  lemma DeathKeepsRecord(env: Setup, d: Delivery, h: History, p: nat, job: Job, cause: Error)
    requires Sane(env) && RecordOK(env, d, h) && HeldBy(env, d, p, job)
    ensures RecordOK(env,
                     d.(state := Dead, attempt := d.attempt + 1, leaseOwner := "", leaseUntil := None,
                        lastError := cause.Text()),
                     h.(log := h.log + [Settle(p, d.leaseEpoch, Died)]))
  {
    GrantedTo(env, d, h, p, job);
    LogGrows(h.log, Settle(p, d.leaseEpoch, Died));
    SpacingGrows(h.log, Settle(p, d.leaseEpoch, Died), h.reservedAt);
  }

  lemma RetryKeepsTally(env: Setup, d: Delivery, log: seq<Ev>, d': Delivery, e: Ev)
    requires WellLogged(log) && EndsLike(env, d, log) && Tallied(env, d, log) && d.state == Leased
    requires e.Settle? && (e.verdict == Failed || e.verdict == Postponed) && Follows(log, e)
    requires e.verdict == Failed ==> d.attempt + 1 < env.maxAttempts
    requires d'.state == Pending && d'.attempt == d.attempt + 1 && d'.leaseEpoch == d.leaseEpoch
    ensures WellLogged(log + [e]) && EndsLike(env, d', log + [e]) && Tallied(env, d', log + [e])
  {
    LogGrows(log, e);
  }

  lemma RetryKeepsRecord(env: Setup, d: Delivery, h: History, p: nat, job: Job, cause: Error, deferred: bool)
    requires Sane(env) && RecordOK(env, d, h) && HeldBy(env, d, p, job)
    requires !deferred ==> d.attempt + 1 < env.workers[p].maxAttempts
    ensures RecordOK(env, d.(state := Pending, attempt := d.attempt + 1, nextAttempt := RetryAt(job, deferred),
                             leaseOwner := "", leaseUntil := None, lastError := cause.Text()),
                     h.(log := h.log + [Settle(p, d.leaseEpoch, if deferred then Postponed else Failed)]))
    ensures RetryAt(job, deferred) > d.nextAttempt
  {
    var e := Settle(p, d.leaseEpoch, if deferred then Postponed else Failed);
    var d' := d.(state := Pending, attempt := d.attempt + 1, nextAttempt := RetryAt(job, deferred),
                 leaseOwner := "", leaseUntil := None, lastError := cause.Text());
    GrantedTo(env, d, h, p, job);
    RetryKeepsTally(env, d, h.log, d', e);
    BackoffFits(d.attempt);
    if !h.tainted {
      RetrySpaced(d, h, d', p, job, deferred);
    }
  }

  lemma RevivalKeepsRecord(env: Setup, d: Delivery, h: History, p: nat, job: Job)
    requires RecordOK(env, d, h) && d.state == Dead && 1 <= job.inc <= h.inc
    requires !h.tainted && job.inc == h.inc ==> d.nextAttempt <= job.now
    ensures RecordOK(env, d.(state := Pending, nextAttempt := job.now + SECOND, leaseOwner := "", leaseUntil := None,
                             lastError := "terminal journal append failed"),
                     h.(log := h.log + [Revive(p)], tainted := h.tainted || job.inc != h.inc))
  {
    LogGrows(h.log, Revive(p));
    SpacingGrows(h.log, Revive(p), h.reservedAt);
  }

  lemma ReserveStartsRecord(env: Setup, id: string, event: Event, now: Time, inc: nat)
    requires inc >= 1
    ensures RecordOK(env, Delivery(id, event, Pending, 0, now, "", 0, None, ""), History(inc, now, [], false))
  {
  }

  // ---------- One process ----------

  /** The id a process is busy with, and the incarnation it believes in. */
  function About(env: Setup, pc: PC): (string, nat) {
    match pc
    case AtAllow(job) => (job.id, job.inc)
    case AtSend(job) => (job.id, job.inc)
    case AtRelease(job, _) => (job.id, job.inc)
    case AtComplete(job) => (job.id, job.inc)
    case AtJournalDelivered(job) => (job.id, job.inc)
    case AtDead(job, _) => (job.id, job.inc)
    case AtJournalDead(job) => (job.id, job.inc)
    case AtRevive(job) => (job.id, job.inc)
    case AtRetry(job, _, _) => (job.id, job.inc)
    case _ => ("", 0)
  }

  /** What a process holding an unsettled lease knows: if the delivery still bears its name, the
      delivery is as it acquired it, in the same incarnation. */
  predicate Holding(env: Setup, p: nat, job: Job, d: Option<Delivery>, h: History, clock: Time, steady: bool) {
    && p < |env.workers| && 1 <= job.inc <= h.inc
    && job.lease.nextAttempt <= job.now && (steady ==> job.now <= clock)
    && (d.Some? && d.value.state == Leased && d.value.leaseOwner == env.workers[p].id ==>
          d.value == job.lease && job.inc == h.inc)
  }

  /** What a process knows between killing a delivery and reviving it: nobody else touched it. */
  predicate Burying(p: nat, job: Job, d: Option<Delivery>, h: History) {
    && 1 <= job.inc <= h.inc
    && (d.Some? && job.inc == h.inc && !h.tainted ==>
          && d.value.state == Dead && d.value.nextAttempt <= job.now
          && h.log != [] && h.log[|h.log| - 1].Settle? && h.log[|h.log| - 1].proc == p)
  }

  predicate ProcessOK(env: Setup, p: nat, pc: PC, d: Option<Delivery>, h: History,
                      completer: Option<nat>, journaled: nat, clock: Time, steady: bool) {
    match pc
    case AtPop(now) => steady ==> now <= clock
    case AtAcquire(_, _, now) => steady ==> now <= clock
    case AtAllow(job) => Holding(env, p, job, d, h, clock, steady)
    case AtSend(job) => Holding(env, p, job, d, h, clock, steady)
    case AtRelease(job, _) => Holding(env, p, job, d, h, clock, steady)
    case AtComplete(job) => Holding(env, p, job, d, h, clock, steady)
    case AtDead(job, _) => Holding(env, p, job, d, h, clock, steady)
    case AtRetry(job, _, deferred) =>
      && Holding(env, p, job, d, h, clock, steady)
      && (!deferred ==> job.lease.attempt + 1 < env.workers[p].maxAttempts)
    case AtJournalDelivered(job) => completer == Some(p) && journaled == 0
    case AtJournalDead(job) => Burying(p, job, d, h)
    case AtRevive(job) => Burying(p, job, d, h)
    case _ => true
  }

  /** Delivered entries written for one incarnation of one id. */
  function Deliveries(journal: seq<Journal.Entry>, tags: seq<nat>, id: string, inc: nat): nat
    requires |journal| == |tags|
  {
    if journal == [] then 0
    else
      var n := |journal| - 1;
      Deliveries(journal[..n], tags[..n], id, inc) +
      if journal[n].delivery == id && journal[n].transition == Delivered && tags[n] == inc then 1 else 0
  }

  lemma DeliveriesGrow(journal: Journal.Log, tags: seq<nat>, delivery: string, event: Event, transition: DeliveryState,
                       at: Time, tag: nat, id: string, inc: nat)
    requires |journal| == |tags|
    ensures Deliveries(Journal.Recorded(journal, delivery, event, transition, at), tags + [tag], id, inc) ==
            Deliveries(journal, tags, id, inc) +
            if delivery == id && transition == Delivered && tag == inc then 1 else 0
  {
    var after := Journal.Recorded(journal, delivery, event, transition, at);
    assert after[..|journal|] == journal && (tags + [tag])[..|tags|] == tags;
  }

  // ---------- The invariant ----------

  predicate Shaped(s: State, env: Setup) {
    |s.procs| == |env.workers| && |s.tags| == |s.relay.journal|
  }

  predicate RecordAt(s: State, env: Setup, id: string) {
    match Lookup(s.relay.store.deliveries, id)
    case None => true
    case Some(d) =>
      && id in s.hist && RecordOK(env, d, s.hist[id])
      && (d.state == Delivered <==> (id, s.hist[id].inc) in s.completers)
      && (s.steady ==> forall k | 0 <= k < |s.hist[id].log| && s.hist[id].log[k].Grant? ::
                        s.hist[id].log[k].now <= s.clock)
  }

  predicate CompletionAt(s: State, env: Setup, id: string, inc: nat)
    requires Shaped(s, env)
  {
    var n := Deliveries(s.relay.journal, s.tags, id, inc);
    && ((id, inc) in s.completers ==> inc <= Hist(s, id).inc)
    && n <= 1 && (n > 0 ==> (id, inc) in s.completers)
  }

  predicate ProcessAt(s: State, env: Setup, p: nat)
    requires Shaped(s, env) && p < |s.procs|
  {
    var (id, inc) := About(env, s.procs[p]);
    ProcessOK(env, p, s.procs[p], Lookup(s.relay.store.deliveries, id), Hist(s, id),
              Lookup(s.completers, (id, inc)), Deliveries(s.relay.journal, s.tags, id, inc), s.clock, s.steady)
  }

  ghost predicate Inv(s: State, env: Setup) {
    && Shaped(s, env)
    && Store.Consistent(s.relay.store, env.idOf)
    && (forall id :: RecordAt(s, env, id))
    && (forall id, inc :: CompletionAt(s, env, id, inc))
    && (forall p: nat | p < |s.procs| :: ProcessAt(s, env, p))
  }
}
