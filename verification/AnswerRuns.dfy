/** What the answers given in a run of whole operations add up to. */
module AnswerRuns {
  import opened Core
  import Store
  import Schedule
  import Breaker
  import BreakerRuns
  import opened Transactions
  import opened Answers
  import AtomicRuns

  // ---------- Each delivery is reported once ----------

  /** The id for which this operation answers that it delivered, if any. */
  function Reported(x: AtomicRuns.World, c: Config, a: AtomicRuns.Action): seq<string> {
    match a
    case Step(w, id, now, send, reject) =>
      if Schedule.IsNext(x.relay.queue, now, id) && Transactions.Step(x.relay, c, w, id, now, send, reject).delivered
      then [id] else []
    case StepFor(w, id, now, send, reject) =>
      if Transactions.StepFor(x.relay, c, w, id, now, send, reject).delivered then [id] else []
    case _ => []
  }

  function AllReported(c: Config, idOf: string -> string, actions: seq<AtomicRuns.Action>): seq<string> {
    if actions == [] then []
    else
      var front, a := actions[..|actions| - 1], actions[|actions| - 1];
      AllReported(c, idOf, front) + Reported(AtomicRuns.Run(c, idOf, front), c, a)
  }

  function Times(ids: seq<string>, id: string): nat {
    multiset(ids)[id]
  }

  /** Nothing is reported before it is delivered, nor twice; what is delivered was reported, or its entry was
      rejected. */
  predicate ReportedRight(x: AtomicRuns.World, reported: seq<string>, id: string) {
    && Times(reported, id) <= 1
    && (Times(reported, id) == 1 ==> DeliveredAt(x.relay, id))
    && (DeliveredAt(x.relay, id) ==> Times(reported, id) == 1 || id in x.lost)
  }

  lemma WorkReports(x: AtomicRuns.World, c: Config, w: Worker, key: string, now: Time, send: Option<string>,
                    reject: bool, forced: bool, early: bool, reported: seq<string>, id: string)
    requires ReportedRight(x, reported, id)
    ensures var o := Work(x.relay, c, w, key, now, send, reject, forced);
            ReportedRight(AtomicRuns.Noted(x, c, key, o, early), reported + (if o.delivered then [key] else []), id)
  {
    StepDeliversExactly(x.relay, c, w, key, now, send, reject, forced);
    WorkAmounts(x.relay, c, w, key, now, send, reject, forced);
    AtomicRuns.OutcomeIsConfined(x.relay, c, key, now, Work(x.relay, c, w, key, now, send, reject, forced));
  }

  lemma SubmitReports(x: AtomicRuns.World, c: Config, idOf: string -> string, event: Event, now: Time, reject: bool,
                      rejectUndo: bool, reported: seq<string>, id: string)
    requires Store.Consistent(x.relay.store, idOf) && Injective(idOf) && ReportedRight(x, reported, id)
    ensures ReportedRight(AtomicRuns.WithRelay(x, Submit(x.relay, c, idOf, event, now, reject, rejectUndo).relay),
                          reported, id)
  {
    SubmitAmounts(x.relay, c, idOf, event, now, reject, rejectUndo);
  }

  lemma StepReports(x: AtomicRuns.World, c: Config, idOf: string -> string, a: AtomicRuns.Action,
                    reported: seq<string>, id: string)
    requires ReportedRight(x, reported, id) && a.Step? && Schedule.IsNext(x.relay.queue, a.now, a.id)
    ensures ReportedRight(AtomicRuns.Exec(x, c, idOf, a), reported + Reported(x, c, a), id)
  {
    WorkReports(AtomicRuns.Pop(x, a.id), c, a.worker, a.id, a.now, a.send, a.reject, false,
                AtomicRuns.TooSoon(x.relay, a.id, a.now), reported, id);
  }

  lemma StepForReports(x: AtomicRuns.World, c: Config, idOf: string -> string, a: AtomicRuns.Action,
                       reported: seq<string>, id: string)
    requires ReportedRight(x, reported, id) && a.StepFor?
    ensures ReportedRight(AtomicRuns.Exec(x, c, idOf, a), reported + Reported(x, c, a), id)
  {
    WorkReports(x, c, a.worker, a.id, a.now, a.send, a.reject, true, false, reported, id);
  }

  lemma NothingReported(x: AtomicRuns.World, c: Config, idOf: string -> string, a: AtomicRuns.Action,
                        reported: seq<string>, id: string)
    requires ReportedRight(x, reported, id) && !a.Submit? && !a.StepFor?
    requires !(a.Step? && Schedule.IsNext(x.relay.queue, a.now, a.id))
    ensures ReportedRight(AtomicRuns.Exec(x, c, idOf, a), reported, id) && Reported(x, c, a) == []
  {
  }

  lemma ExecReports(x: AtomicRuns.World, c: Config, idOf: string -> string, a: AtomicRuns.Action,
                    reported: seq<string>, id: string)
    requires AtomicRuns.Agreement(x, idOf) && Injective(idOf) && ReportedRight(x, reported, id)
    ensures ReportedRight(AtomicRuns.Exec(x, c, idOf, a), reported + Reported(x, c, a), id)
  {
    if a.Submit? {
      SubmitReports(x, c, idOf, a.event, a.now, a.reject, a.rejectUndo, reported, id);
      assert reported + [] == reported;
    } else if a.StepFor? {
      StepForReports(x, c, idOf, a, reported, id);
    } else if a.Step? && Schedule.IsNext(x.relay.queue, a.now, a.id) {
      StepReports(x, c, idOf, a, reported, id);
    } else {
      NothingReported(x, c, idOf, a, reported, id);
      assert reported + [] == reported;
    }
  }

  lemma {:induction false} AlwaysReportedRight(c: Config, idOf: string -> string, actions: seq<AtomicRuns.Action>,
                                               id: string)
    requires Injective(idOf)
    ensures ReportedRight(AtomicRuns.Run(c, idOf, actions), AllReported(c, idOf, actions), id)
  {
    if actions != [] {
      var front, a := actions[..|actions| - 1], actions[|actions| - 1];
      AlwaysReportedRight(c, idOf, front, id);
      AtomicRuns.AlwaysAgreement(c, idOf, front);
      ExecReports(AtomicRuns.Run(c, idOf, front), c, idOf, a, AllReported(c, idOf, front), id);
    }
  }

  /** In every run, restarts and rejections included, Step and StepFor answer true at most once for a delivery, and
      only for one that stays delivered; a delivery whose Delivered entry the journal took was reported so. */
  lemma DeliveredIsReportedOnce(c: Config, idOf: string -> string, actions: seq<AtomicRuns.Action>, id: string)
    requires Injective(idOf)
    ensures var x, reported := AtomicRuns.Run(c, idOf, actions), AllReported(c, idOf, actions);
            && Times(reported, id) <= 1
            && (id in reported ==> DeliveredAt(x.relay, id))
            && (DeliveredAt(x.relay, id) && id !in x.lost ==> id in reported)
  {
    AlwaysReportedRight(c, idOf, actions, id);
  }

  // ---------- Each key is created once ----------

  function Created(x: AtomicRuns.World, c: Config, idOf: string -> string, a: AtomicRuns.Action): seq<string> {
    if a.Submit? && Submit(x.relay, c, idOf, a.event, a.now, a.reject, a.rejectUndo).created then [a.event.key] else []
  }

  function AllCreated(c: Config, idOf: string -> string, actions: seq<AtomicRuns.Action>): seq<string> {
    if actions == [] then []
    else
      var front, a := actions[..|actions| - 1], actions[|actions| - 1];
      AllCreated(c, idOf, front) + Created(AtomicRuns.Run(c, idOf, front), c, idOf, a)
  }

  lemma ExecCreates(x: AtomicRuns.World, c: Config, idOf: string -> string, a: AtomicRuns.Action, key: string)
    requires AtomicRuns.Agreement(x, idOf) && Injective(idOf)
    ensures var before, after := x.relay.store.reserved, AtomicRuns.Exec(x, c, idOf, a).relay.store.reserved;
            if key in Created(x, c, idOf, a) then key !in before && key in after else key in before <==> key in after
  {
    match a
    case Submit(event, now, reject, rejectUndo) => SubmitAmounts(x.relay, c, idOf, event, now, reject, rejectUndo);
    case Step(w, id, now, send, reject) => WorkAmounts(Popped(x.relay, id), c, w, id, now, send, reject, false);
    case StepFor(w, id, now, send, reject) => WorkAmounts(x.relay, c, w, id, now, send, reject, true);
    case RetryOverdue(_, _) =>
    case Restart =>
  }

  /** In every run Submit answers `created` exactly once for each key that is reserved, and never for another. */
  lemma {:induction false} CreatedOnce(c: Config, idOf: string -> string, actions: seq<AtomicRuns.Action>, key: string)
    requires Injective(idOf)
    ensures Times(AllCreated(c, idOf, actions), key) ==
            if key in AtomicRuns.Run(c, idOf, actions).relay.store.reserved then 1 else 0
  {
    if actions != [] {
      var front, a := actions[..|actions| - 1], actions[|actions| - 1];
      CreatedOnce(c, idOf, front, key);
      AtomicRuns.AlwaysAgreement(c, idOf, front);
      ExecCreates(AtomicRuns.Run(c, idOf, front), c, idOf, a, key);
    }
  }

  // ---------- Circuits follow the sends ----------

  /** The report about the endpoint that an operation makes, if it gets to call the sender. */
  function SendOf(s: Relay, id: string, now: Time, send: Option<string>): seq<BreakerRuns.Report> {
    if Calls(s, id, now) then
      [BreakerRuns.Report(s.store.deliveries[id].event.endpoint, BreakerRuns.OutcomeOf(send.None?, now))]
    else []
  }

  function Sends(x: AtomicRuns.World, a: AtomicRuns.Action): seq<BreakerRuns.Report> {
    match a
    case Step(_, id, now, send, _) =>
      if Schedule.IsNext(x.relay.queue, now, id) then SendOf(x.relay, id, now, send) else []
    case StepFor(_, id, now, send, _) => SendOf(x.relay, id, now, send)
    case _ => []
  }

  /** The sends of a run, oldest first. */
  function AllSends(c: Config, idOf: string -> string, actions: seq<AtomicRuns.Action>): seq<BreakerRuns.Report> {
    if actions == [] then []
    else
      var front, a := actions[..|actions| - 1], actions[|actions| - 1];
      AllSends(c, idOf, front) + Sends(AtomicRuns.Run(c, idOf, front), a)
  }

  ghost predicate Follows(s: Relay, sends: seq<BreakerRuns.Report>, c: Config, endpoint: string) {
    BreakerRuns.FollowsReports(Breaker.At(s.circuits, endpoint), sends, c.limits, endpoint)
  }

  lemma WorkFollows(s: Relay, c: Config, w: Worker, id: string, now: Time, send: Option<string>, reject: bool,
                    forced: bool, sends: seq<BreakerRuns.Report>, endpoint: string)
    requires Follows(s, sends, c, endpoint)
    ensures Follows(Work(s, c, w, id, now, send, reject, forced).relay, sends + SendOf(s, id, now, send), c, endpoint)
  {
    ThreeWays(s, c, w, id, now, send, reject, forced);
    if Calls(s, id, now) {
      var called := Called(s, c, w, id, now, send.None?);
      AtomicRuns.SettlingKeepsCircuits(called, c, w, Held(s, w, id, now), id, now, send, reject, forced);
      BreakerRuns.ReportFollows(Breaker.Admitted(s.circuits, s.store.deliveries[id].event.endpoint), sends, c.limits,
                                s.store.deliveries[id].event.endpoint, now, send.None?, endpoint);
    } else {
      assert sends + [] == sends;
    }
  }

  lemma {:induction false} AlwaysFollows(c: Config, idOf: string -> string, actions: seq<AtomicRuns.Action>,
                                         endpoint: string)
    ensures Follows(AtomicRuns.Run(c, idOf, actions).relay, AllSends(c, idOf, actions), c, endpoint)
  {
    if actions != [] {
      var front, a := actions[..|actions| - 1], actions[|actions| - 1];
      AlwaysFollows(c, idOf, front, endpoint);
      ExecFollows(AtomicRuns.Run(c, idOf, front), c, idOf, a, AllSends(c, idOf, front), endpoint);
    }
  }

  lemma ExecFollows(x: AtomicRuns.World, c: Config, idOf: string -> string, a: AtomicRuns.Action,
                    sends: seq<BreakerRuns.Report>, endpoint: string)
    requires Follows(x.relay, sends, c, endpoint)
    ensures Follows(AtomicRuns.Exec(x, c, idOf, a).relay, sends + Sends(x, a), c, endpoint)
  {
    if a.StepFor? {
      WorkFollows(x.relay, c, a.worker, a.id, a.now, a.send, a.reject, true, sends, endpoint);
      StepForSends(x, c, idOf, a);
    } else if a.Step? && Schedule.IsNext(x.relay.queue, a.now, a.id) {
      WorkFollows(Popped(x.relay, a.id), c, a.worker, a.id, a.now, a.send, a.reject, false, sends, endpoint);
      StepSends(x, c, idOf, a);
    } else {
      NoSend(x, c, idOf, a);
      assert sends + [] == sends;
    }
  }

  lemma StepForSends(x: AtomicRuns.World, c: Config, idOf: string -> string, a: AtomicRuns.Action)
    requires a.StepFor?
    ensures Sends(x, a) == SendOf(x.relay, a.id, a.now, a.send)
    ensures AtomicRuns.Exec(x, c, idOf, a).relay ==
            Work(x.relay, c, a.worker, a.id, a.now, a.send, a.reject, true).relay
  {
  }

  lemma StepSends(x: AtomicRuns.World, c: Config, idOf: string -> string, a: AtomicRuns.Action)
    requires a.Step? && Schedule.IsNext(x.relay.queue, a.now, a.id)
    ensures Sends(x, a) == SendOf(Popped(x.relay, a.id), a.id, a.now, a.send)
    ensures AtomicRuns.Exec(x, c, idOf, a).relay ==
            Work(Popped(x.relay, a.id), c, a.worker, a.id, a.now, a.send, a.reject, false).relay
  {
  }

  lemma NoSend(x: AtomicRuns.World, c: Config, idOf: string -> string, a: AtomicRuns.Action)
    requires !a.StepFor? && !(a.Step? && Schedule.IsNext(x.relay.queue, a.now, a.id))
    ensures AtomicRuns.Exec(x, c, idOf, a).relay.circuits == x.relay.circuits && Sends(x, a) == []
  {
  }

  /** Between the operations of any run, a circuit refuses exactly when the last send to its endpoint failed, at
      least `threshold` in a row did, and less than the cooldown has passed since the last one began. */
  lemma RefusedAfterFailuresExactly(c: Config, idOf: string -> string, actions: seq<AtomicRuns.Action>,
                                    endpoint: string, now: Time)
    ensures var sends := AllSends(c, idOf, actions);
            !Breaker.Admits(Breaker.At(AtomicRuns.Run(c, idOf, actions).relay.circuits, endpoint), now) <==>
            BreakerRuns.Tripped(sends, c.limits, endpoint) && now < BreakerRuns.CooledAt(sends, c.limits, endpoint)
  {
    AlwaysFollows(c, idOf, actions, endpoint);
    AtomicRuns.NoProbeBetweenSteps(c, idOf, actions, endpoint);
  }

  // ---------- Nobody is buried early ----------

  predicate Patient(a: AtomicRuns.Action, attempts: int) {
    a.Step? ==> a.worker.maxAttempts >= attempts
  }

  predicate BuriedLate(s: Relay, id: string, attempts: int) {
    id in s.store.deliveries && s.store.deliveries[id].state == Dead ==> s.store.deliveries[id].attempt >= attempts
  }

  lemma WorkBuriesLate(s: Relay, c: Config, w: Worker, key: string, now: Time, send: Option<string>, reject: bool,
                       forced: bool, id: string, attempts: int)
    requires BuriedLate(s, id, attempts) && (!forced ==> w.maxAttempts >= attempts)
    ensures BuriedLate(Work(s, c, w, key, now, send, reject, forced).relay, id, attempts)
  {
    StepSettles(s, c, w, key, now, send, reject, forced);
  }

  /** In every run, a dead delivery has used up the attempts that every worker of the run allows it. */
  lemma {:induction false} NeverBuriedEarly(c: Config, idOf: string -> string, actions: seq<AtomicRuns.Action>,
                                            id: string, attempts: int)
    requires Injective(idOf) && forall a | a in actions :: Patient(a, attempts)
    ensures BuriedLate(AtomicRuns.Run(c, idOf, actions).relay, id, attempts)
  {
    if actions != [] {
      var front, a := actions[..|actions| - 1], actions[|actions| - 1];
      NeverBuriedEarly(c, idOf, front, id, attempts);
      AtomicRuns.AlwaysAgreement(c, idOf, front);
      var s := AtomicRuns.Run(c, idOf, front).relay;
      assert a in actions && Patient(a, attempts);
      match a
      case Submit(event, now, reject, rejectUndo) => SubmitAmounts(s, c, idOf, event, now, reject, rejectUndo);
      case Step(w, key, now, send, reject) =>
        WorkBuriesLate(Popped(s, key), c, w, key, now, send, reject, false, id, attempts);
      case StepFor(w, key, now, send, reject) =>
        WorkBuriesLate(s, c, w, key, now, send, reject, true, id, attempts);
      case RetryOverdue(_, _) =>
      case Restart =>
    }
  }
}
