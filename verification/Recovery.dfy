/** Rebuilding the queue from the journal after a restart. */
module Recovery {
  import opened Core
  import Breaker
  import Journal
  import Schedule
  import Store
  import opened Replaying
  import opened Transactions
  import AtomicRuns

  /** After any run, with room for every delivery ever journaled Pending, the replay runs to the
      end and every delivery still to be made is queued, at the time of its newest entry, which
      is no later than its NextAttempt. */
  lemma RecoveryCoversUnfinished(c: Config, idOf: string -> string, actions: seq<AtomicRuns.Action>, capacity: int,
                                 id: string)
    requires Injective(idOf) && |PendingIds(AtomicRuns.Run(c, idOf, actions).relay.journal)| <= capacity
    ensures var s := AtomicRuns.Run(c, idOf, actions).relay;
            var p := Replayed(map[], capacity, s.journal);
            && p.err.None? && p.processed == |s.journal|
            && (id in s.store.deliveries && !s.store.deliveries[id].Terminal() ==>
                  && id in p.queue && p.queue[id] <= s.store.deliveries[id].nextAttempt
                  && Journal.Last(s.journal, id).Some? && p.queue[id] == Journal.Last(s.journal, id).value.at)
  {
    var s := AtomicRuns.Run(c, idOf, actions).relay;
    var empty: Schedule.Ready := map[];
    assert empty.Keys + PendingIds(s.journal) == PendingIds(s.journal);
    ReplayFits(empty, capacity, s.journal);
    ReplayIsLastWriterWins(empty, capacity, s.journal, id);
    AtomicRuns.AlwaysAgreement(c, idOf, actions);
    assert AtomicRuns.AgreesOn(AtomicRuns.Run(c, idOf, actions), id);
    if id in s.store.deliveries && !s.store.deliveries[id].Terminal() {
      LastPendingIsLast(s.journal, id);
    }
  }

  const RESTART: seq<AtomicRuns.Action> := [AtomicRuns.Restart]

  /** The replay brings back ids of deliveries that are delivered or dead. At every later point of any run, a step
      for one of them is refused without a send; a step for any other delivery goes ahead exactly when it is due
      and not under another lease. */
  lemma RecoveredStepIsSafe(c: Config, idOf: string -> string, before: seq<AtomicRuns.Action>,
                            after: seq<AtomicRuns.Action>,
                            id: string, w: Worker, now: Time, send: Option<string>, reject: bool)
    requires Injective(idOf)
    ensures var restarted := AtomicRuns.Run(c, idOf, before + RESTART);
            var s := AtomicRuns.Run(c, idOf, before + RESTART + after).relay;
            var fate, d := Step(s, c, w, id, now, send, reject).fate, Lookup(s.store.deliveries, id);
            && (AtomicRuns.Finished(restarted, id) ==> !Sent(fate))
            && (fate == Refused ==> Step(s, c, w, id, now, send, reject).relay == Popped(s, id))
            && (fate != Refused <==>
                  d.Some? && !d.value.Terminal() && d.value.nextAttempt <= now
                  && (d.value.state == Leased ==> !After(d.value.leaseUntil, now)))
  {
    AtomicRuns.RunInTwo(AtomicRuns.START, c, idOf, before + RESTART, after);
    var s := AtomicRuns.Run(c, idOf, before + RESTART + after).relay;
    if AtomicRuns.Finished(AtomicRuns.Run(c, idOf, before + RESTART), id) {
      AtomicRuns.FinishedIsNeverSent(c, idOf, before + RESTART, after, id, w, now, send, reject);
    }
    StepGoesAhead(s, c, w, id, now, send, reject);
    WorkAmounts(Popped(s, id), c, w, id, now, send, reject, false);
  }

  lemma StepGoesAhead(s: Relay, c: Config, w: Worker, id: string, now: Time, send: Option<string>, reject: bool)
    ensures var d := Lookup(s.store.deliveries, id);
            Step(s, c, w, id, now, send, reject).fate != Refused <==>
            d.Some? && !d.value.Terminal() && d.value.nextAttempt <= now
            && (d.value.state == Leased ==> !After(d.value.leaseUntil, now))
  {
    WorkAmounts(Popped(s, id), c, w, id, now, send, reject, false);
  }

  /** Replay queues at the entry's time, not at NextAttempt, and a step forgets an id it pops too
      early: such a delivery stays pending but is queued no more, until RetryOverdue finds it. */
  lemma EarlyStepForgets(s: Relay, c: Config, w: Worker, id: string, now: Time, send: Option<string>, reject: bool)
    requires id in s.store.deliveries && s.store.deliveries[id].state == Pending
    ensures var t := Step(s, c, w, id, now, send, reject).relay;
            (t.store == s.store && id !in t.queue) <==> now < s.store.deliveries[id].nextAttempt
  {
    WorkAmounts(Popped(s, id), c, w, id, now, send, reject, false);
  }

  // ---------- A run in which it happens ----------

  const EVENT := Event("evt-1", "acme", "endpoint-a", KEY, [1], 0, 0)
  const WORKER := Worker("worker", SECOND, 2)
  const CONFIG := Config(1, Breaker.Limits(5, HOUR))

  function OwnId(key: string): string {
    key
  }

  const KEY := "key-1"
  const FIRST := Journal.Entry(1, KEY, EVENT, Pending, 0)
  const SECOND_ENTRY := Journal.Entry(2, KEY, EVENT, Pending, 0)

  function Admitted(): Relay {
    Relay(Store.State(map[KEY := Delivery(KEY, EVENT, Pending, 0, 0, "", 0, None, "")], map[KEY := KEY]),
          [FIRST], map[KEY := 0], map[])
  }

  /** Failed once at 0, so due again after a second. */
  predicate FailedOnce(s: Relay) {
    && Lookup(s.store.deliveries, KEY).Some?
    && s.store.deliveries[KEY].state == Pending && s.store.deliveries[KEY].nextAttempt == SECOND
    && s.journal == [FIRST, SECOND_ENTRY] && s.queue == map[KEY := SECOND]
  }

  lemma SubmitAdmits()
    ensures Submit(EMPTY, CONFIG, OwnId, EVENT, 0, false, false).relay == Admitted()
  {
  }

  lemma StepFails()
    ensures FailedOnce(Step(Admitted(), CONFIG, WORKER, KEY, 0, Some("down"), false).relay)
    ensures Schedule.IsNext(Admitted().queue, 0, KEY)
    ensures Step(Admitted(), CONFIG, WORKER, KEY, 0, Some("down"), false).fate == Rescheduled
  {
  }

  lemma ReplayQueuesEarly(s: Relay)
    requires FailedOnce(s)
    ensures AtomicRuns.Replayed(s, 1) == map[KEY := 0]
  {
    assert [FIRST, SECOND_ENTRY][1..] == [SECOND_ENTRY] && [SECOND_ENTRY][1..] == [];
    assert Replayed(map[KEY := 0], 1, [SECOND_ENTRY]).queue == map[KEY := 0];
  }

  lemma EarlyStep(s: Relay, now: Time)
    requires Lookup(s.store.deliveries, KEY).Some?
    requires s.store.deliveries[KEY].state == Pending && s.store.deliveries[KEY].nextAttempt == SECOND
    requires s.queue == map[KEY := 0] && 0 <= now < SECOND
    ensures var o := Step(s, CONFIG, WORKER, KEY, now, None, false);
            o.fate == Refused && o.relay.store == s.store && o.relay.queue == map[] &&
              Schedule.IsNext(s.queue, now, KEY)
  {
    WorkAmounts(Popped(s, KEY), CONFIG, WORKER, KEY, now, None, false, false);
    StepGoesAhead(s, CONFIG, WORKER, KEY, now, None, false);
  }

  /** Submitted and failed at 0, restarted, and stepped before the second is over. */
  function EarlyRun(now: Time): seq<AtomicRuns.Action> {
    [AtomicRuns.Action.Submit(EVENT, 0, false, false),
     AtomicRuns.Action.Step(WORKER, KEY, 0, Some("down"), false),
     AtomicRuns.Restart,
     AtomicRuns.Action.Step(WORKER, KEY, now, None, false)]
  }

  lemma RunFour(c: Config, idOf: string -> string, a: seq<AtomicRuns.Action>)
    requires |a| == 4
    ensures AtomicRuns.Run(c, idOf, a) ==
            AtomicRuns.Exec(
              AtomicRuns.Exec(
                AtomicRuns.Exec(AtomicRuns.Exec(AtomicRuns.START, c, idOf, a[0]), c, idOf, a[1]), c, idOf, a[2]),
              c, idOf, a[3])
  {
    assert a[..3][..2] == a[..2] && a[..2][..1] == a[..1] && a[..1][..0] == [];
    assert AtomicRuns.RunFrom(AtomicRuns.START, c, idOf, []) == AtomicRuns.START;
    assert AtomicRuns.Run(c, idOf, a[..1]) == AtomicRuns.Exec(AtomicRuns.START, c, idOf, a[0]);
    assert AtomicRuns.Run(c, idOf, a[..2]) == AtomicRuns.Exec(AtomicRuns.Run(c, idOf, a[..1]), c, idOf, a[1]);
    assert AtomicRuns.Run(c, idOf, a[..3]) == AtomicRuns.Exec(AtomicRuns.Run(c, idOf, a[..2]), c, idOf, a[2]);
  }

  lemma FailedOnceHappens(now: Time)
    ensures var a := EarlyRun(now);
            var x := AtomicRuns.Exec(AtomicRuns.Exec(AtomicRuns.START, CONFIG, OwnId, a[0]), CONFIG, OwnId, a[1]);
            FailedOnce(x.relay) && x.stranded == {}
  {
    SubmitAdmits();
    StepFails();
    var x1 := AtomicRuns.Exec(AtomicRuns.START, CONFIG, OwnId, EarlyRun(now)[0]);
    assert x1.relay == Admitted() && x1.stranded == {};
  }

  lemma RestartQueuesEarly(x: AtomicRuns.World)
    requires FailedOnce(x.relay) && x.stranded == {}
    ensures var y := AtomicRuns.Exec(x, CONFIG, OwnId, AtomicRuns.Restart);
            y.relay == x.relay.(queue := map[KEY := 0]) && y.stranded == {}
  {
    ReplayQueuesEarly(x.relay);
  }

  lemma EarlyStepLosesSlot(x: AtomicRuns.World, now: Time)
    requires 0 <= now < SECOND && x.stranded == {} && x.relay.queue == map[KEY := 0]
    requires Lookup(x.relay.store.deliveries, KEY).Some?
    requires x.relay.store.deliveries[KEY].state == Pending && x.relay.store.deliveries[KEY].nextAttempt == SECOND
    ensures var y := AtomicRuns.Exec(x, CONFIG, OwnId, AtomicRuns.Action.Step(WORKER, KEY, now, None, false));
            y.relay.store == x.relay.store && y.relay.queue == map[] && y.stranded == {} && y.early == x.early + {KEY}
  {
    EarlyStep(x.relay, now);
  }

  /** After this run, with nothing rejected on the way, a pending delivery is in no queue. */
  lemma EarlyStepHappens(now: Time)
    requires 0 <= now < SECOND
    ensures Injective(OwnId)
    ensures var x := AtomicRuns.Run(CONFIG, OwnId, EarlyRun(now));
            && Lookup(x.relay.store.deliveries, KEY).Some? && x.relay.store.deliveries[KEY].state == Pending
            && x.relay.queue == map[] && x.stranded == {} && KEY in x.early
  {
    var a := EarlyRun(now);
    RunFour(CONFIG, OwnId, a);
    FailedOnceHappens(now);
    var x := AtomicRuns.Exec(AtomicRuns.Exec(AtomicRuns.START, CONFIG, OwnId, a[0]), CONFIG, OwnId, a[1]);
    RestartQueuesEarly(x);
    EarlyStepLosesSlot(AtomicRuns.Exec(x, CONFIG, OwnId, a[2]), now);
  }
}
