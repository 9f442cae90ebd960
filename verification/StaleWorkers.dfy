/** What a worker that was overtaken can still do: two runs that show why backoff spacing is claimed only
    within an incarnation, and journal agreement only for whole operations. */
module StaleWorkers {
  import opened Core
  import Journal
  import Schedule
  import Breaker
  import opened Transactions
  import opened Interleaving
  import opened LeaseLog
  import opened LeaseInvariant

  // ---------- Putting runs together ----------

  lemma RunFour(s: State, env: Setup, a: Action, b: Action, c: Action, d: Action)
    ensures RunFrom(s, env, [a, b, c, d]) == Exec(Exec(Exec(Exec(s, env, a), env, b), env, c), env, d)
  {
    RunThree(s, env, a, b, c);
    RunOneMore(s, env, [a, b, c], d);
    assert [a, b, c] + [d] == [a, b, c, d];
  }

  // ---------- The cast ----------

  const KEY := "key-1"
  const EVENT := Event("evt-1", "acme", "endpoint-a", KEY, [1], 0, 0)
  const DAY := 24 * HOUR

  /** A submitter and two workers that try `tries` times; a key is its own id. */
  function Setting(tries: int): Setup {
    Setup([Worker("submitter", 0, tries), Worker("first", SECOND, tries), Worker("second", SECOND, tries)],
          Config(1, Breaker.Limits(5, HOUR)), (key: string) => key, tries)
  }

  const DOWN := Some("down")

  /** The next call of process `p`. */
  function Next(p: nat, failure: Option<string>, reject: bool): Action {
    Go(p, Some(KEY), failure, reject)
  }

  predicate ClosedCircuit(s: State, failures: nat) {
    var c := Breaker.At(s.relay.circuits, EVENT.endpoint);
    c.openUntil == None && c.failures <= failures
  }

  // ---------- Reserved, but already swept into the queue ----------

  predicate Reservable(s: State, at: Time) {
    |s.procs| == 3 && s.procs[0] == Idle && s.clock == at && s.relay.queue == map[] && KEY !in s.relay.store.reserved
  }

  function Admission(at: Time): seq<Action> {
    [BeginSubmit(0, EVENT), Next(0, None, false), QueueElsewhere(KEY, at)]
  }

  predicate Swept(s: State, t: State, at: Time) {
    && Reservable(s, at)
    && t.procs == s.procs[0 := AtAdmit(EVENT, at, Hist(s, KEY).inc + 1)]
    && t.clock == at && t.relay.queue == map[KEY := at]
    && t.relay.store.reserved == s.relay.store.reserved[KEY := KEY]
    && Lookup(t.relay.store.deliveries, KEY) == Some(Delivery(KEY, EVENT, Pending, 0, at, "", 0, None, ""))
    && KEY in t.hist && t.hist[KEY] == History(Hist(s, KEY).inc + 1, at, [], false)
    && t.relay.circuits == s.relay.circuits
  }

  lemma SweptOnceReserved(s: State, tries: int, at: Time)
    requires Reservable(s, at)
    ensures var env := Setting(tries);
            Swept(s, Exec(Exec(Exec(s, env, BeginSubmit(0, EVENT)), env, Next(0, None, false)), env,
                          QueueElsewhere(KEY, at)), at)
  {
    var env := Setting(tries);
    var s1 := Exec(s, env, BeginSubmit(0, EVENT));
    assert s1 == Moved(s, 0, AtReserve(EVENT, at));
    var s2 := Exec(s1, env, Next(0, None, false));
    assert s2 == Reserve(s1, env, 0, EVENT, at);
    var s3 := Exec(s2, env, QueueElsewhere(KEY, at));
    assert s3.relay == WithSchedule(s2.relay, env.config, KEY, at);
  }

  lemma AdmissionIsSwept(s: State, tries: int, at: Time)
    requires Reservable(s, at)
    ensures Swept(s, RunFrom(s, Setting(tries), Admission(at)), at)
  {
    SweptOnceReserved(s, tries, at);
    RunThree(s, Setting(tries), BeginSubmit(0, EVENT), Next(0, None, false), QueueElsewhere(KEY, at));
  }

  // ---------- A worker leases it ----------

  /** The delivery is pending, due and queued, and process `p` is free. */
  predicate Ripe(s: State, p: nat) {
    && |s.procs| == 3 && 1 <= p < 3 && s.procs[p] == Idle
    && s.relay.queue == map[KEY := s.clock]
    && KEY in s.relay.store.deliveries && KEY in s.hist
    && var d := s.relay.store.deliveries[KEY];
    && d.state == Pending && d.nextAttempt == s.clock && d.event == EVENT
  }

  predicate SameBut(s: State, t: State, p: nat) {
    && |s.procs| == |t.procs| == 3 && p < 3 && t.procs == s.procs[p := t.procs[p]]
    && t.clock == s.clock && t.relay.store.reserved == s.relay.store.reserved
    && KEY in s.hist && KEY in t.hist
    && t.hist[KEY].inc == s.hist[KEY].inc && t.hist[KEY].reservedAt == s.hist[KEY].reservedAt
  }

  predicate Leased(s: State, t: State, tries: int, p: nat)
    requires Ripe(s, p)
  {
    && SameBut(s, t, p) && t.procs[p].AtAllow? && t.relay.circuits == s.relay.circuits && t.relay.queue == map[]
    && var job := t.procs[p].job;
    && !job.forced && job.id == KEY && job.now == s.clock && job.inc == s.hist[KEY].inc
    && Lookup(t.relay.store.deliveries, KEY) == Some(job.lease)
    && job.lease.state == DeliveryState.Leased && job.lease.event == EVENT
    && job.lease.leaseOwner == Setting(tries).workers[p].id
    && job.lease.attempt == s.relay.store.deliveries[KEY].attempt
    && job.lease.nextAttempt == s.relay.store.deliveries[KEY].nextAttempt
  }

  function Leasing(p: nat, failure: Option<string>): seq<Action> {
    [BeginStep(p), Next(p, failure, false), Next(p, failure, false)]
  }

  lemma LeasingLeases(s: State, tries: int, p: nat, failure: Option<string>)
    requires Ripe(s, p)
    ensures Leased(s, RunFrom(s, Setting(tries), Leasing(p, failure)), tries, p)
  {
    var env, go := Setting(tries), Next(p, failure, false);
    RunThree(s, env, BeginStep(p), go, go);
    PopsKey(s, tries, p, failure);
    var s2 := Exec(Exec(s, env, BeginStep(p)), env, go);
    assert Exec(s2, env, go) == Acquire(s2, env.workers[p], p, false, KEY, s.clock);
    AcquiresKey(s, s2, tries, p);
  }

  lemma PopsKey(s: State, tries: int, p: nat, failure: Option<string>)
    requires Ripe(s, p)
    ensures var env, go := Setting(tries), Next(p, failure, false);
            var t := Exec(Exec(s, env, BeginStep(p)), env, go);
            t == Moved(s.(relay := Popped(s.relay, KEY)), p, AtAcquire(false, KEY, s.clock))
  {
    var env, go := Setting(tries), Next(p, failure, false);
    var s1 := Exec(s, env, BeginStep(p));
    assert s1 == Moved(s, p, AtPop(s.clock));
    assert Schedule.IsNext(s.relay.queue, s.clock, KEY);
    assert Exec(s1, env, go) == Pop(s1, p, s.clock, Some(KEY));
  }

  lemma AcquiresKey(s: State, t: State, tries: int, p: nat)
    requires Ripe(s, p) && t == Moved(s.(relay := Popped(s.relay, KEY)), p, AtAcquire(false, KEY, s.clock))
    ensures Leased(s, Acquire(t, Setting(tries).workers[p], p, false, KEY, s.clock), tries, p)
  {
  }

  // ---------- Its send fails, and it settles the lease ----------

  function Failing(p: nat): seq<Action> {
    [Next(p, DOWN, false), Next(p, DOWN, false), Next(p, DOWN, false), Next(p, DOWN, false)]
  }

  predicate Failed(s: State, t: State, tries: int, p: nat, failures: nat)
    requires |s.procs| == 3 && p < 3 && s.procs[p].AtAllow?
  {
    && SameBut(s, t, p) && t.relay.queue == s.relay.queue && ClosedCircuit(t, failures + 1)
    && var job := s.procs[p].job;
    && KEY in t.relay.store.deliveries
    && var d := t.relay.store.deliveries[KEY];
    && d.attempt == job.lease.attempt + 1 && d.event == EVENT
    && if d.attempt >= tries then
         d.state == Dead && d.nextAttempt == job.lease.nextAttempt && t.procs[p] == AtJournalDead(job)
       else
         && d.state == Pending && d.nextAttempt == job.now + BackoffFor(job.lease.attempt)
         && t.procs[p] == AtJournalPending(job, d.nextAttempt)
  }

  /** The send has failed and its failure is reported. */
  predicate Reported(s: State, t: State, tries: int, p: nat, failures: nat)
    requires |s.procs| == 3 && p < 3 && s.procs[p].AtAllow?
  {
    && SameBut(s, t, p) && t.relay.queue == s.relay.queue && ClosedCircuit(t, failures + 1)
    && t.relay.store == s.relay.store
    && var job := s.procs[p].job;
    t.procs[p] == if job.lease.attempt + 1 >= tries then AtDead(job, SendFailed("down"))
                  else AtRetry(job, SendFailed("down"), false)
  }

  lemma SendFails(s: State, t: State, tries: int, p: nat, failures: nat)
    requires Ripe(s, p) && Leased(s, t, tries, p) && ClosedCircuit(t, failures) && failures <= 2
    ensures var env, go := Setting(tries), Next(p, DOWN, false);
            Reported(t, Exec(Exec(Exec(t, env, go), env, go), env, go), tries, p, failures)
  {
    var env, go := Setting(tries), Next(p, DOWN, false);
    var job := t.procs[p].job;
    var s4 := Exec(t, env, go);
    assert s4 == Allow(t, p, job) && s4.procs[p] == AtSend(job);
    var s5 := Exec(s4, env, go);
    assert s5 == Moved(s4, p, AtRelease(job, DOWN));
    var s6 := Exec(s5, env, go);
    assert s6 == Release(s5, env, env.workers[p], p, job, DOWN);
  }

  lemma FailureSettles(s: State, t: State, u: State, tries: int, p: nat, failures: nat)
    requires Ripe(s, p) && Leased(s, t, tries, p) && Reported(t, u, tries, p, failures)
    ensures Failed(t, Exec(u, Setting(tries), Next(p, DOWN, false)), tries, p, failures)
  {
    var env, w, job := Setting(tries), Setting(tries).workers[p], t.procs[p].job;
    var v := Exec(u, env, Next(p, DOWN, false));
    if job.lease.attempt + 1 >= tries {
      assert v == Kill(u, w, p, job, SendFailed("down"));
    } else {
      assert v == GiveBack(u, w, p, job, SendFailed("down"), false);
    }
  }

  lemma FailingFails(s: State, t: State, tries: int, p: nat, failures: nat)
    requires Ripe(s, p) && Leased(s, t, tries, p) && ClosedCircuit(t, failures) && failures <= 2
    ensures Failed(t, RunFrom(t, Setting(tries), Failing(p)), tries, p, failures)
  {
    var env, go := Setting(tries), Next(p, DOWN, false);
    RunFour(t, env, go, go, go, go);
    SendFails(s, t, tries, p, failures);
    FailureSettles(s, t, Exec(Exec(Exec(t, env, go), env, go), env, go), tries, p, failures);
  }

  // ---------- First run: an unfenced revival ----------

  function BegunWith(tries: int): State {
    Run(Setting(tries), 0, Admission(0))
  }

  function FailedOnce(tries: int): State {
    RunFrom(RunFrom(BegunWith(tries), Setting(tries), Leasing(1, DOWN)), Setting(tries), Failing(1))
  }

  lemma LeasedFirst(tries: int)
    ensures var s, t := BegunWith(tries), RunFrom(BegunWith(tries), Setting(tries), Leasing(1, DOWN));
            && Ripe(s, 1) && Leased(s, t, tries, 1) && ClosedCircuit(t, 0)
            && s.procs[0] == AtAdmit(EVENT, 0, 1) && s.procs[2] == Idle && s.clock == 0 && s.hist[KEY].inc == 1
            && s.relay.store.reserved == map[KEY := KEY] && s.relay.store.deliveries[KEY].attempt == 0
  {
    AdmissionIsSwept(Initial(3, 0), tries, 0);
    LeasingLeases(BegunWith(tries), tries, 1, DOWN);
  }

  lemma FailsOnce(tries: int)
    ensures var s := FailedOnce(tries);
            && |s.procs| == 3 && s.procs[0] == AtAdmit(EVENT, 0, 1) && s.procs[2] == Idle && s.clock == 0
            && s.relay.queue == map[] && s.relay.store.reserved == map[KEY := KEY] && ClosedCircuit(s, 1)
            && KEY in s.hist && s.hist[KEY].inc == 1 && KEY in s.relay.store.deliveries
            && var d := s.relay.store.deliveries[KEY];
            && d.event == EVENT && d.attempt == 1
            && (tries <= 1 ==> s.procs[1].AtJournalDead?)
            && (tries > 1 ==> d.state == Pending && d.nextAttempt == SECOND && s.procs[1].AtJournalPending?)
            && (s.procs[1].AtJournalDead? || s.procs[1].AtJournalPending?)
            && s.procs[1].job.id == KEY && s.procs[1].job.now == 0 && s.procs[1].job.inc == 1
  {
    LeasedFirst(tries);
    FailingFails(BegunWith(tries), RunFrom(BegunWith(tries), Setting(tries), Leasing(1, DOWN)), tries, 1, 0);
  }

  /** The first worker's Dead entry is rejected; before it revives the delivery the journal also rejects the
      submitter, who rolls back. */
  const REJECTED: seq<Action> := [Next(1, None, true), Next(0, None, true), Next(0, None, false), Tick(DAY)]

  predicate TakenBack(s: State, t: State)
    requires |s.procs| == 3 && s.procs[1].AtJournalDead?
  {
    && Reservable(t, DAY) && t.procs[1] == AtRevive(s.procs[1].job) && t.procs[2] == s.procs[2]
    && Hist(t, KEY) == Hist(s, KEY) && t.relay.circuits == s.relay.circuits
  }

  lemma RejectionTakesBack(s: State)
    requires |s.procs| == 3 && s.procs[0] == AtAdmit(EVENT, 0, 1) && s.procs[1].AtJournalDead?
    requires s.relay.queue == map[] && s.relay.store.reserved == map[KEY := KEY]
    ensures var env := Setting(1);
            TakenBack(s, Exec(Exec(Exec(Exec(s, env, Next(1, None, true)), env, Next(0, None, true)), env,
                                   Next(0, None, false)), env, Tick(DAY)))
  {
    var env := Setting(1);
    var s1 := Exec(s, env, Next(1, None, true));
    assert s1 == Moved(s, 1, AtRevive(s.procs[1].job));
    var s2 := Exec(s1, env, Next(0, None, true));
    assert s2 == Moved(s1, 0, AtRollback(EVENT, 0, 1, false));
    var s3 := Exec(s2, env, Next(0, None, false));
    assert s3 == Rollback(s2, env, 0, s2.procs[0]);
  }

  lemma RejectionRollsBack(s: State)
    requires |s.procs| == 3 && s.procs[0] == AtAdmit(EVENT, 0, 1) && s.procs[1].AtJournalDead?
    requires s.relay.queue == map[] && s.relay.store.reserved == map[KEY := KEY]
    ensures TakenBack(s, RunFrom(s, Setting(1), REJECTED))
  {
    RunFour(s, Setting(1), Next(1, None, true), Next(0, None, true), Next(0, None, false), Tick(DAY));
    RejectionTakesBack(s);
  }

  function RolledBack(): State {
    RunFrom(FailedOnce(1), Setting(1), REJECTED)
  }

  function Resubmitted(): State {
    RunFrom(RolledBack(), Setting(1), Admission(DAY))
  }

  function FailedAgain(): State {
    RunFrom(RunFrom(Resubmitted(), Setting(1), Leasing(2, DOWN)), Setting(1), Failing(2))
  }

  lemma FailsAgain()
    ensures var s := FailedAgain();
            && |s.procs| == 3 && s.procs[1].AtRevive? && s.procs[1].job.id == KEY
            && s.procs[1].job.now == 0 && s.procs[1].job.inc == 1
            && KEY in s.hist && s.hist[KEY].inc == 2 && s.hist[KEY].reservedAt == DAY
            && KEY in s.relay.store.deliveries && s.relay.store.deliveries[KEY].state == Dead
            && s.relay.store.deliveries[KEY].attempt == 1 && s.relay.store.deliveries[KEY].nextAttempt == DAY
  {
    FailsOnce(1);
    RejectionRollsBack(FailedOnce(1));
    AdmissionIsSwept(RolledBack(), 1, DAY);
    LeasingLeases(Resubmitted(), 1, 2, DOWN);
    FailingFails(Resubmitted(), RunFrom(Resubmitted(), Setting(1), Leasing(2, DOWN)), 1, 2, 1);
  }

  lemma RevivedTooEarly(s: State)
    requires |s.procs| == 3 && s.procs[1].AtRevive? && s.procs[1].job.id == KEY && s.procs[1].job.now == 0
    requires KEY in s.hist && s.procs[1].job.inc == 1 && s.hist[KEY].inc == 2 && s.hist[KEY].reservedAt == DAY
    requires KEY in s.relay.store.deliveries && s.relay.store.deliveries[KEY].state == Dead
    requires s.relay.store.deliveries[KEY].attempt == 1
    ensures var t := Exec(s, Setting(1), Next(1, None, false));
            && KEY in t.relay.store.deliveries && KEY in t.hist
            && var d := t.relay.store.deliveries[KEY];
            && d.state == Pending && d.nextAttempt == SECOND && d.attempt == 1
            && t.hist[KEY].tainted && t.hist[KEY].inc == 2 && t.hist[KEY].reservedAt == DAY
  {
    assert Exec(s, Setting(1), Next(1, None, false)) == ReviveDead(s, 1, s.procs[1].job);
  }

  function StaleRevival(): seq<Action> {
    Admission(0) + Leasing(1, DOWN) + Failing(1) + REJECTED + Admission(DAY) + Leasing(2, DOWN) + Failing(2) +
    [Next(1, None, false)]
  }

  lemma StaleRevivalInStages()
    ensures Run(Setting(1), 0, StaleRevival()) == Exec(FailedAgain(), Setting(1), Next(1, None, false))
  {
    var env, s0 := Setting(1), Initial(3, 0);
    var a := Admission(0);
    RunInTwo(s0, env, a, Leasing(1, DOWN));
    a := a + Leasing(1, DOWN);
    RunInTwo(s0, env, a, Failing(1));
    a := a + Failing(1);
    RunInTwo(s0, env, a, REJECTED);
    a := a + REJECTED;
    RunInTwo(s0, env, a, Admission(DAY));
    a := a + Admission(DAY);
    RunInTwo(s0, env, a, Leasing(2, DOWN));
    a := a + Leasing(2, DOWN);
    RunInTwo(s0, env, a, Failing(2));
    a := a + Failing(2);
    RunOneMore(s0, env, a, Next(1, None, false));
  }

  /** ReviveDead is not fenced. In this run a delivery reserved after a day, and due then, is made due one second
      after the run began, by a worker left over from the delivery that was rolled back under the same id. */
  lemma StaleRevivalBreaksSpacing()
    ensures Sane(Setting(1))
    ensures var before := FailedAgain();
            && KEY in before.relay.store.deliveries && before.relay.store.deliveries[KEY].nextAttempt == DAY
            && Run(Setting(1), 0, StaleRevival()) == Exec(before, Setting(1), Next(1, None, false))
    ensures var s := Run(Setting(1), 0, StaleRevival());
            && KEY in s.relay.store.deliveries
            && var d, h := s.relay.store.deliveries[KEY], Hist(s, KEY);
            && h.tainted && h.inc == 2 && h.reservedAt == DAY && d.attempt <= 30
            && d.state == Pending && d.nextAttempt == SECOND < Spacing(h.reservedAt, 0)
  {
    FailsAgain();
    RevivedTooEarly(FailedAgain());
    StaleRevivalInStages();
  }

  // ---------- Second run: a stale Pending entry ----------

  /** The delivery is swept into the queue once more, leased by the second worker and sent. */
  function Waiting(): seq<Action> {
    [Tick(SECOND), QueueElsewhere(KEY, SECOND)]
  }

  function Delivering(p: nat): seq<Action> {
    [Next(p, None, false), Next(p, None, false), Next(p, None, false), Next(p, None, false)]
  }

  lemma WaitingIsRipe(s: State)
    requires |s.procs| == 3 && s.procs[2] == Idle && s.relay.queue == map[]
    requires KEY in s.relay.store.deliveries && KEY in s.hist
    requires s.relay.store.deliveries[KEY].state == Pending && s.relay.store.deliveries[KEY].event == EVENT
    requires s.relay.store.deliveries[KEY].nextAttempt == SECOND
    ensures var t := RunFrom(s, Setting(2), Waiting());
            Ripe(t, 2) && t.procs == s.procs && t.relay.circuits == s.relay.circuits
  {
    var env := Setting(2);
    RunOneMore(s, env, [], Tick(SECOND));
    RunOneMore(s, env, [Tick(SECOND)], QueueElsewhere(KEY, SECOND));
    assert [] + [Tick(SECOND)] == [Tick(SECOND)];
    assert [Tick(SECOND)] + [QueueElsewhere(KEY, SECOND)] == Waiting();
  }

  predicate Delivered(s: State, t: State, p: nat)
    requires |s.procs| == 3
  {
    && |t.procs| == 3 && p < 3 && t.procs == s.procs[p := t.procs[p]]
    && t.procs[p].AtJournalDelivered? && t.procs[p].job.id == KEY
    && KEY in t.relay.store.deliveries && t.relay.store.deliveries[KEY].state == DeliveryState.Delivered
  }

  /** The send has succeeded and its success is reported. */
  predicate Succeeded(s: State, t: State, p: nat)
    requires |s.procs| == 3 && p < 3 && s.procs[p].AtAllow?
  {
    SameBut(s, t, p) && t.relay.store == s.relay.store && t.procs[p] == AtComplete(s.procs[p].job)
  }

  lemma SendSucceeds(s: State, t: State, p: nat)
    requires Ripe(s, p) && Leased(s, t, 2, p) && ClosedCircuit(t, 1)
    ensures var env, go := Setting(2), Next(p, None, false);
            Succeeded(t, Exec(Exec(Exec(t, env, go), env, go), env, go), p)
  {
    var env, go := Setting(2), Next(p, None, false);
    var job := t.procs[p].job;
    var s4 := Exec(t, env, go);
    assert s4 == Allow(t, p, job) && s4.procs[p] == AtSend(job);
    var s5 := Exec(s4, env, go);
    assert s5 == Moved(s4, p, AtRelease(job, None));
    var s6 := Exec(s5, env, go);
    assert s6 == Release(s5, env, env.workers[p], p, job, None);
  }

  lemma SuccessCompletes(s: State, t: State, u: State, p: nat)
    requires Ripe(s, p) && Leased(s, t, 2, p) && Succeeded(t, u, p)
    ensures Delivered(t, Exec(u, Setting(2), Next(p, None, false)), p)
  {
    assert Exec(u, Setting(2), Next(p, None, false)) == Complete(u, Setting(2).workers[p], p, t.procs[p].job);
  }

  lemma DeliveringDelivers(s: State, t: State, p: nat)
    requires Ripe(s, p) && Leased(s, t, 2, p) && ClosedCircuit(t, 1)
    ensures Delivered(t, RunFrom(t, Setting(2), Delivering(p)), p)
  {
    var env, go := Setting(2), Next(p, None, false);
    RunFour(t, env, go, go, go, go);
    SendSucceeds(s, t, p);
    SuccessCompletes(s, t, Exec(Exec(Exec(t, env, go), env, go), env, go), p);
  }

  function LeasedAgain(): State {
    RunFrom(RunFrom(FailedOnce(2), Setting(2), Waiting()), Setting(2), Leasing(2, None))
  }

  function Overtaken(): State {
    RunFrom(LeasedAgain(), Setting(2), Delivering(2))
  }

  lemma OvertakenIsDelivered()
    ensures var s := Overtaken();
            && |s.procs| == 3 && s.procs[1].AtJournalPending? && s.procs[1].job.id == KEY
            && s.procs[2].AtJournalDelivered? && s.procs[2].job.id == KEY
            && KEY in s.relay.store.deliveries && s.relay.store.deliveries[KEY].state == DeliveryState.Delivered
  {
    FailsOnce(2);
    var s := RunFrom(FailedOnce(2), Setting(2), Waiting());
    WaitingIsRipe(FailedOnce(2));
    LeasingLeases(s, 2, 2, None);
    DeliveringDelivers(s, LeasedAgain(), 2);
  }

  function StaleEntry(): seq<Action> {
    Admission(0) + Leasing(1, DOWN) + Failing(1) + Waiting() + Leasing(2, None) + Delivering(2) +
    [Next(2, None, false), Next(1, None, false)]
  }

  lemma StaleEntryInStages()
    ensures Run(Setting(2), 0, StaleEntry()) ==
            Exec(Exec(Overtaken(), Setting(2), Next(2, None, false)), Setting(2), Next(1, None, false))
  {
    var env, s0 := Setting(2), Initial(3, 0);
    var a := Admission(0);
    RunInTwo(s0, env, a, Leasing(1, DOWN));
    a := a + Leasing(1, DOWN);
    RunInTwo(s0, env, a, Failing(1));
    a := a + Failing(1);
    RunInTwo(s0, env, a, Waiting());
    a := a + Waiting();
    RunInTwo(s0, env, a, Leasing(2, None));
    a := a + Leasing(2, None);
    RunInTwo(s0, env, a, Delivering(2));
    a := a + Delivering(2);
    RunOneMore(s0, env, a, Next(2, None, false));
    RunOneMore(s0, env, a + [Next(2, None, false)], Next(1, None, false));
    assert a + [Next(2, None, false)] + [Next(1, None, false)] == StaleEntry();
  }

  lemma EntriesCross(s: State)
    requires |s.procs| == 3 && s.procs[1].AtJournalPending? && s.procs[1].job.id == KEY
    requires s.procs[2].AtJournalDelivered? && s.procs[2].job.id == KEY
    ensures var u := Exec(s, Setting(2), Next(2, None, false));
            var t := Exec(u, Setting(2), Next(1, None, false));
            && t.relay.store == s.relay.store && |t.relay.journal| == |s.relay.journal| + 2
            && t.relay.journal[|s.relay.journal|].delivery == KEY
            && t.relay.journal[|s.relay.journal|].transition == DeliveryState.Delivered
            && Journal.Last(t.relay.journal, KEY).Some?
            && Journal.Last(t.relay.journal, KEY).value.transition == Pending
  {
    var u := Exec(s, Setting(2), Next(2, None, false));
    assert u == Moved(Written(s, false, KEY, s.procs[2].job.lease.event, DeliveryState.Delivered, s.procs[2].job.now,
                              s.procs[2].job.inc), 2, Idle);
    var e := u.procs[1].job;
    Journal.LastAfterRecord(u.relay.journal, KEY, e.lease.event, Pending, e.now);
  }

  /** The journal is not under the store's lock. In this run no append is rejected, and yet a delivered
      delivery is last journaled Pending: a worker that backed off writes its entry after another delivered. */
  lemma StaleEntryFollowsDelivery()
    ensures Sane(Setting(2))
    ensures var s := Run(Setting(2), 0, StaleEntry());
            && KEY in s.relay.store.deliveries && s.relay.store.deliveries[KEY].state == DeliveryState.Delivered
            && (exists e :: e in s.relay.journal && e.delivery == KEY && e.transition == DeliveryState.Delivered)
            && Journal.Last(s.relay.journal, KEY).Some?
            && Journal.Last(s.relay.journal, KEY).value.transition == Pending
  {
    OvertakenIsDelivered();
    EntriesCross(Overtaken());
    StaleEntryInStages();
    var s := Run(Setting(2), 0, StaleEntry());
    assert s.relay.journal[|Overtaken().relay.journal|] in s.relay.journal;
  }
}
