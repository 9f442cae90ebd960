/** Interleaved runs in which operations do not overlap are the runs of whole operations, so what holds
    there of journal and store holds here. */
module SerialRuns {
  import opened Core
  import Journal
  import Schedule
  import AtomicRuns
  import JournalOrder
  import opened Transactions
  import opened Interleaving
  import opened Uninterrupted

  /** One operation of process `p`, begun at `now` and not interrupted. */
  datatype Operation =
    | Submitting(p: nat, now: Time, event: Event, reject: bool, rejectUndo: bool)
    | Stepping(p: nat, now: Time, next: Option<string>, send: Option<string>, reject: bool)
    | SteppingFor(p: nat, now: Time, id: string, send: Option<string>, reject: bool)

  /** The calls it takes; a Step for an id that PopReady would not return, or for none when something is due,
      is not begun. */
  function Calls(s: State, op: Operation): seq<Action> {
    match op
    case Submitting(p, _, event, reject, rejectUndo) =>
      [BeginSubmit(p, event), Go(p, None, None, false), Go(p, None, None, reject)] +
        Times(Go(p, None, None, rejectUndo), 3)
    case Stepping(p, now, Some(id), send, reject) =>
      if Schedule.IsNext(s.relay.queue, now, id) then [BeginStep(p)] + Times(Go(p, Some(id), send, reject), 9) else []
    case Stepping(p, now, None, send, reject) =>
      if Schedule.Due(s.relay.queue, now) == {} then [BeginStep(p)] + Times(Go(p, None, send, reject), 1) else []
    case SteppingFor(p, _, id, send, reject) => [BeginStepFor(p, id)] + Times(Go(p, None, send, reject), 8)
  }

  function Performed(s: State, env: Setup, op: Operation): State {
    RunFrom(Exec(s, env, Tick(op.now)), env, Calls(s, op))
  }

  /** The operation as one transition, or none for a Step that finds nothing. */
  function Atomic(env: Setup, op: Operation): seq<AtomicRuns.Action>
    requires op.p < |env.workers|
  {
    match op
    case Submitting(_, now, event, reject, rejectUndo) => [AtomicRuns.Action.Submit(event, now, reject, rejectUndo)]
    case Stepping(p, now, Some(id), send, reject) => [AtomicRuns.Action.Step(env.workers[p], id, now, send, reject)]
    case Stepping(_, _, None, _, _) => []
    case SteppingFor(p, now, id, send, reject) => [AtomicRuns.Action.StepFor(env.workers[p], id, now, send, reject)]
  }

  predicate AllResting(s: State, env: Setup) {
    |s.procs| == |env.workers| && forall p | 0 <= p < |s.procs| :: s.procs[p] == Idle
  }

  lemma PerformedIsAtomic(s: State, env: Setup, op: Operation, x: AtomicRuns.World)
    requires AllResting(s, env) && op.p < |env.workers| && x.relay == s.relay
    ensures var t := Performed(s, env, op);
            AllResting(t, env) && t.relay == AtomicRuns.RunFrom(x, env.config, env.idOf, Atomic(env, op)).relay
  {
    var u := Exec(s, env, Tick(op.now));
    assert Resting(u, op.p) && u.relay == s.relay && u.clock == op.now;
    match op
    case Submitting(p, now, event, reject, rejectUndo) => SubmitAlone(u, env, p, event, reject, rejectUndo, 3);
    case Stepping(p, now, Some(id), send, reject) =>
      if Schedule.IsNext(s.relay.queue, now, id) {
        StepAlone(u, env, p, id, send, reject, 9);
      }
    case Stepping(p, now, None, send, reject) =>
      if Schedule.Due(s.relay.queue, now) == {} {
        StepAloneFindsNothing(u, env, p, send, reject, 1);
      }
    case SteppingFor(p, now, id, send, reject) => StepForAlone(u, env, p, id, send, reject, 8);
  }

  // ---------- Runs ----------

  function Serially(env: Setup, clock: Time, ops: seq<Operation>): seq<Action> {
    if ops == [] then []
    else
      var before, op := Serially(env, clock, ops[..|ops| - 1]), ops[|ops| - 1];
      before + ([Tick(op.now)] + Calls(Run(env, clock, before), op))
  }

  function Atomically(env: Setup, ops: seq<Operation>): seq<AtomicRuns.Action>
    requires forall op | op in ops :: op.p < |env.workers|
  {
    if ops == [] then [] else Atomically(env, ops[..|ops| - 1]) + Atomic(env, ops[|ops| - 1])
  }

  /** Operation after operation, the interleaved relay and the atomic relay are the same. */
  lemma {:induction false} SerialIsAtomic(env: Setup, clock: Time, ops: seq<Operation>)
    requires forall op | op in ops :: op.p < |env.workers|
    ensures var s := Run(env, clock, Serially(env, clock, ops));
            && AllResting(s, env)
            && s.relay == AtomicRuns.Run(env.config, env.idOf, Atomically(env, ops)).relay
  {
    if ops != [] {
      var front, op := ops[..|ops| - 1], ops[|ops| - 1];
      SerialIsAtomic(env, clock, front);
      var before := Serially(env, clock, front);
      var s, x := Run(env, clock, before), AtomicRuns.Run(env.config, env.idOf, Atomically(env, front));
      PerformedIsAtomic(s, env, op, x);
      RunInTwo(Initial(|env.workers|, clock), env, before, [Tick(op.now)] + Calls(s, op));
      RunInTwo(s, env, [Tick(op.now)], Calls(s, op));
      RunOneMore(s, env, [], Tick(op.now));
      assert [] + [Tick(op.now)] == [Tick(op.now)];
      AtomicRuns.RunInTwo(AtomicRuns.START, env.config, env.idOf, Atomically(env, front), Atomic(env, op));
    }
  }

  /** So without overlap the journal agrees with the store in `Interleaving` too: they differ exactly on the
      deliveries whose Delivered entry was rejected. */
  lemma SerialRunsAgree(env: Setup, clock: Time, ops: seq<Operation>, id: string)
    requires Injective(env.idOf) && forall op | op in ops :: op.p < |env.workers|
    ensures var s := Run(env, clock, Serially(env, clock, ops)).relay;
            var lost := AtomicRuns.Run(env.config, env.idOf, Atomically(env, ops)).lost;
            && AtomicRuns.Agrees(Lookup(s.store.deliveries, id), Journal.Last(s.journal, id), id in lost)
            && (JournalOrder.TellsOf(Run(env, clock, Serially(env, clock, ops)), id) <==> id !in lost)
  {
    SerialIsAtomic(env, clock, ops);
    AtomicRuns.AlwaysAgreement(env.config, env.idOf, Atomically(env, ops));
    assert AtomicRuns.AgreesOn(AtomicRuns.Run(env.config, env.idOf, Atomically(env, ops)), id);
    var x := AtomicRuns.Run(env.config, env.idOf, Atomically(env, ops));
    JournalOrder.AgreementTells(Lookup(x.relay.store.deliveries, id), Journal.Last(x.relay.journal, id), id in x.lost);
  }
}
