/** The per-endpoint circuit breaker and its once-only permits. */
module Breaker {
  import opened Core

  datatype Circuit = Circuit(failures: nat, openUntil: Option<Time>, probe: bool)

  const CLOSED := Circuit(0, None, false)

  type Circuits = map<string, Circuit>

  datatype Limits = Limits(threshold: int, cooldown: Duration)

  /** A missing entry reads as a closed circuit. */
  function At(cs: Circuits, endpoint: string): Circuit {
    if endpoint in cs then cs[endpoint] else CLOSED
  }

  predicate Admits(c: Circuit, now: Time) {
    !After(c.openUntil, now) && (c.openUntil.Some? ==> !c.probe)
  }

  /** The circuits after an admitted call: past its cooldown, the call is the probe. */
  function Admitted(cs: Circuits, endpoint: string): Circuits {
    var c := At(cs, endpoint);
    if c.openUntil.Some? then cs[endpoint := c.(probe := true)] else cs
  }

  /** The circuits after the permit granted at `grantedAt` reports its outcome. */
  function Reported(cs: Circuits, limits: Limits, endpoint: string, grantedAt: Time, success: bool): Circuits {
    var c := At(cs, endpoint).(probe := false);
    var failed := c.(failures := c.failures + 1);
    cs[endpoint :=
      if success then c.(failures := 0, openUntil := None)
      else if failed.failures >= limits.threshold then failed.(openUntil := Some(grantedAt + limits.cooldown))
      else failed]
  }

  /** What a report does to the calls after it, whatever probes come and go: a success lets them through; a
      failure that reaches the threshold refuses them for the whole cooldown after the permit was granted, and
      from then on for as long as a probe is out; any other failure changes nothing for them. */
  lemma CooldownLasts(cs: Circuits, limits: Limits, endpoint: string, grantedAt: Time, success: bool, probe: bool,
                      now: Time)
    ensures var c := At(cs, endpoint);
            var after := At(Reported(cs, limits, endpoint, grantedAt, success), endpoint).(probe := probe);
            Admits(after, now) <==>
            || success
            || (c.failures + 1 >= limits.threshold && grantedAt + limits.cooldown <= now && !probe)
            || (c.failures + 1 < limits.threshold && Admits(c.(probe := probe), now))
  {
  }

  // ---------- The object ----------

  class Permit {
    const endpoint: string
    const now: Time
    var used: bool

    constructor (endpoint: string, now: Time)
      ensures this.endpoint == endpoint && this.now == now && !used
    {
      this.endpoint, this.now, used := endpoint, now, false;
    }
  }

  class Breakers {
    const limits: Limits
    var states: Circuits

    constructor (limits: Limits)
      ensures this.limits == limits && states == map[]
    {
      this.limits, states := limits, map[];
    }

    method Allow(endpoint: string, now: Time) returns (permit: Permit?)
      modifies this
      ensures permit != null <==> Admits(old(At(states, endpoint)), now)
      ensures permit == null ==> states == old(states)
      ensures permit != null ==> fresh(permit) && permit.endpoint == endpoint && permit.now == now && !permit.used
      ensures permit != null ==> states == Admitted(old(states), endpoint)
    {
      var state := At(states, endpoint);
      if After(state.openUntil, now) {
        return null;
      }
      if state.openUntil.Some? {
        if state.probe {
          return null;
        }
        state := state.(probe := true);
        states := states[endpoint := state];
      }
      permit := new Permit(endpoint, now);
    }

    method Release(permit: Permit, success: bool)
      modifies this, permit
      ensures permit.used
      ensures states == if old(permit.used) then old(states)
                        else Reported(old(states), limits, permit.endpoint, permit.now, success)
    {
      if permit.used {
        return;
      }
      permit.used := true;
      var current := At(states, permit.endpoint);
      current := current.(probe := false);
      if success {
        current := current.(failures := 0, openUntil := None);
      } else {
        current := current.(failures := current.failures + 1);
        if current.failures >= limits.threshold {
          current := current.(openUntil := Some(permit.now + limits.cooldown));
        }
      }
      states := states[permit.endpoint := current];
    }

    /** Open means that a call is refused whether or not a probe is out; without a probe out, it is
        exactly what Allow goes by. */
    method IsOpen(endpoint: string, now: Time) returns (open: bool)
      ensures open ==> !Admits(At(states, endpoint), now)
      ensures open <==> !Admits(At(states, endpoint).(probe := false), now)
    {
      return After(At(states, endpoint).openUntil, now);
    }

    method Reset(endpoint: string)
      modifies this
      ensures states == old(states) - {endpoint}
    {
      states := states - {endpoint};
    }
  }
}

/** Any interleaving of Allow, permit releases and Reset. */
module BreakerRuns {
  import opened Core
  import opened Breaker

  datatype Token = Token(endpoint: string, now: Time, probe: bool, used: bool)

  /** A failure is remembered with the time its permit was granted. */
  datatype Report = Report(endpoint: string, outcome: Outcome)
  datatype Outcome = Success | Failure(grantedAt: Time) | ResetByHand

  function OutcomeOf(success: bool, grantedAt: Time): Outcome {
    if success then Success else Failure(grantedAt)
  }

  /** The circuits, every permit handed out so far, and the reports received, oldest first. */
  datatype State = State(circuits: Circuits, tokens: seq<Token>, reports: seq<Report>)

  datatype Action =
    | Allow(endpoint: string, now: Time)
    | Release(token: nat, success: bool)
    | Reset(endpoint: string)

  const INITIAL := State(map[], [], [])

  function Exec(s: State, limits: Limits, a: Action): State {
    match a
    case Allow(endpoint, now) =>
      var c := At(s.circuits, endpoint);
      if !Admits(c, now) then s
      else s.(circuits := Admitted(s.circuits, endpoint),
              tokens := s.tokens + [Token(endpoint, now, c.openUntil.Some?, false)])
    case Release(i, success) =>
      if i >= |s.tokens| || s.tokens[i].used then s
      else
        var t := s.tokens[i];
        State(Reported(s.circuits, limits, t.endpoint, t.now, success),
              s.tokens[i := t.(used := true)],
              s.reports + [Report(t.endpoint, OutcomeOf(success, t.now))])
    case Reset(endpoint) =>
      s.(circuits := s.circuits - {endpoint}, reports := s.reports + [Report(endpoint, ResetByHand)])
  }

  function Run(limits: Limits, actions: seq<Action>): State {
    if actions == [] then INITIAL
    else Exec(Run(limits, actions[..|actions| - 1]), limits, actions[|actions| - 1])
  }

  /** Failing reports about an endpoint since its last success or reset. */
  function Streak(reports: seq<Report>, endpoint: string): nat {
    if reports == [] then 0
    else
      var r, before := reports[|reports| - 1], Streak(reports[..|reports| - 1], endpoint);
      if r.endpoint != endpoint then before
      else if r.outcome.Failure? then before + 1
      else 0
  }

  lemma StreakAfter(reports: seq<Report>, r: Report)
    ensures forall endpoint :: Streak(reports + [r], endpoint) ==
                               if r.endpoint != endpoint then Streak(reports, endpoint)
                               else if r.outcome.Failure? then Streak(reports, endpoint) + 1
                               else 0
  {
    assert (reports + [r])[..|reports|] == reports;
  }

  predicate Counted(s: State, limits: Limits, endpoint: string) {
    var c := At(s.circuits, endpoint);
    && c.failures == Streak(s.reports, endpoint)
    && (limits.threshold >= 1 ==> (c.openUntil.Some? <==> c.failures >= limits.threshold))
    && (c.probe ==> c.openUntil.Some?)
  }

  /** Reporting moves the count and the streak together. */
  lemma ReportCounts(cs: Circuits, limits: Limits, t: Token, success: bool, streak: nat)
    requires var c := At(cs, t.endpoint);
             && c.failures == streak && (limits.threshold >= 1 ==> (c.openUntil.Some? <==> streak >= limits.threshold))
    ensures var c := At(Reported(cs, limits, t.endpoint, t.now, success), t.endpoint);
            && c.failures == (if success then 0 else streak + 1) && !c.probe
            && (limits.threshold >= 1 ==> (c.openUntil.Some? <==> c.failures >= limits.threshold))
  {
  }

  lemma ReleaseCounts(s: State, limits: Limits, i: nat, success: bool, endpoint: string)
    requires Counted(s, limits, endpoint)
    ensures Counted(Exec(s, limits, Release(i, success)), limits, endpoint)
  {
    if i < |s.tokens| && !s.tokens[i].used {
      var t := s.tokens[i];
      StreakAfter(s.reports, Report(t.endpoint, OutcomeOf(success, t.now)));
      if t.endpoint == endpoint {
        ReportCounts(s.circuits, limits, t, success, Streak(s.reports, endpoint));
      } else {
        assert At(Exec(s, limits, Release(i, success)).circuits, endpoint) == At(s.circuits, endpoint);
      }
    }
  }

  lemma ExecCounts(s: State, limits: Limits, a: Action, endpoint: string)
    requires Counted(s, limits, endpoint)
    ensures Counted(Exec(s, limits, a), limits, endpoint)
  {
    match a
    case Allow(_, _) =>
    case Release(i, success) => ReleaseCounts(s, limits, i, success, endpoint);
    case Reset(e) => StreakAfter(s.reports, Report(e, ResetByHand));
  }

  /** In every run the failure count is the failing streak, a circuit is open or cooling down
      exactly when the streak has reached the threshold, and only such a circuit has a probe. */
  lemma {:induction false} BreakerInvariant(limits: Limits, actions: seq<Action>, endpoint: string)
    ensures var s := Run(limits, actions);
            var c := At(s.circuits, endpoint);
            && c.failures == Streak(s.reports, endpoint)
            && (limits.threshold >= 1 ==> (c.openUntil.Some? <==> c.failures >= limits.threshold))
            && (c.probe ==> c.openUntil.Some?)
  {
    if actions != [] {
      BreakerInvariant(limits, actions[..|actions| - 1], endpoint);
      ExecCounts(Run(limits, actions[..|actions| - 1]), limits, actions[|actions| - 1], endpoint);
    }
  }

  // ---------- How long a circuit refuses ----------

  /** The newest report about an endpoint. */
  function LastReport(reports: seq<Report>, endpoint: string): Option<Outcome> {
    if reports == [] then None
    else if reports[|reports| - 1].endpoint == endpoint then Some(reports[|reports| - 1].outcome)
    else LastReport(reports[..|reports| - 1], endpoint)
  }

  lemma LastReportAfter(reports: seq<Report>, r: Report)
    ensures forall endpoint :: LastReport(reports + [r], endpoint) ==
                               if r.endpoint == endpoint then Some(r.outcome) else LastReport(reports, endpoint)
  {
    assert (reports + [r])[..|reports|] == reports;
  }

  /** The last that was heard of the endpoint is a failure, and at least `threshold` in a row are. */
  predicate Tripped(reports: seq<Report>, limits: Limits, endpoint: string) {
    && LastReport(reports, endpoint).Some? && LastReport(reports, endpoint).value.Failure?
    && Streak(reports, endpoint) >= limits.threshold
  }

  /** The instant up to which a tripped circuit refuses every call. */
  function CooledAt(reports: seq<Report>, limits: Limits, endpoint: string): Time
    requires Tripped(reports, limits, endpoint)
  {
    LastReport(reports, endpoint).value.grantedAt + limits.cooldown
  }

  predicate FollowsReports(c: Circuit, reports: seq<Report>, limits: Limits, endpoint: string) {
    && c.failures == Streak(reports, endpoint)
    && c.openUntil == if Tripped(reports, limits, endpoint) then Some(CooledAt(reports, limits, endpoint)) else None
  }

  lemma StreakNeedsReport(reports: seq<Report>, endpoint: string)
    ensures LastReport(reports, endpoint).Some? && LastReport(reports, endpoint).value.Failure? <==>
            Streak(reports, endpoint) > 0
  {
  }

  lemma ReportFollows(cs: Circuits, reports: seq<Report>, limits: Limits, e: string, at: Time, success: bool,
                      endpoint: string)
    requires FollowsReports(At(cs, endpoint), reports, limits, endpoint)
    ensures FollowsReports(At(Reported(cs, limits, e, at, success), endpoint),
                           reports + [Report(e, OutcomeOf(success, at))], limits, endpoint)
  {
    var r := Report(e, OutcomeOf(success, at));
    StreakAfter(reports, r);
    LastReportAfter(reports, r);
    StreakNeedsReport(reports, endpoint);
    if e != endpoint {
      assert At(Reported(cs, limits, e, at, success), endpoint) == At(cs, endpoint);
    }
  }

  lemma ExecFollows(s: State, limits: Limits, a: Action, endpoint: string)
    requires FollowsReports(At(s.circuits, endpoint), s.reports, limits, endpoint)
    ensures var t := Exec(s, limits, a);
            FollowsReports(At(t.circuits, endpoint), t.reports, limits, endpoint)
  {
    match a
    case Allow(e, _) => AdmittedFollows(s.circuits, s.reports, limits, e, endpoint);
    case Release(i, success) =>
      if i < |s.tokens| && !s.tokens[i].used {
        ReportFollows(s.circuits, s.reports, limits, s.tokens[i].endpoint, s.tokens[i].now, success, endpoint);
      }
    case Reset(e) => ResetFollows(s.circuits, s.reports, limits, e, endpoint);
  }

  lemma AdmittedFollows(cs: Circuits, reports: seq<Report>, limits: Limits, e: string, endpoint: string)
    requires FollowsReports(At(cs, endpoint), reports, limits, endpoint)
    ensures FollowsReports(At(Admitted(cs, e), endpoint), reports, limits, endpoint)
  {
  }

  lemma ResetFollows(cs: Circuits, reports: seq<Report>, limits: Limits, e: string, endpoint: string)
    requires FollowsReports(At(cs, endpoint), reports, limits, endpoint)
    ensures FollowsReports(At(cs - {e}, endpoint), reports + [Report(e, ResetByHand)], limits, endpoint)
  {
    StreakAfter(reports, Report(e, ResetByHand));
    LastReportAfter(reports, Report(e, ResetByHand));
  }

  lemma {:induction false} AlwaysFollows(limits: Limits, actions: seq<Action>, endpoint: string)
    ensures var s := Run(limits, actions);
            FollowsReports(At(s.circuits, endpoint), s.reports, limits, endpoint)
  {
    if actions != [] {
      AlwaysFollows(limits, actions[..|actions| - 1], endpoint);
      ExecFollows(Run(limits, actions[..|actions| - 1]), limits, actions[|actions| - 1], endpoint);
    }
  }

  /** In every run a call is refused exactly when the last report about the endpoint was a failure, at least
      `threshold` in a row were, and either less than the cooldown has passed since that last permit was granted
      or the circuit's probe flag is up. */
  lemma RefusesExactly(limits: Limits, actions: seq<Action>, endpoint: string, now: Time)
    ensures var s := Run(limits, actions);
            !Admits(At(s.circuits, endpoint), now) <==>
            && Tripped(s.reports, limits, endpoint)
            && (now < CooledAt(s.reports, limits, endpoint) || At(s.circuits, endpoint).probe)
  {
    AlwaysFollows(limits, actions, endpoint);
  }

  // ---------- At most one probe: false in general, and exactly when it survives a step ----------

  predicate Outstanding(s: State, i: nat, endpoint: string) {
    i < |s.tokens| && s.tokens[i].endpoint == endpoint && s.tokens[i].probe && !s.tokens[i].used
  }

  /** The probe flag tells the truth: it is up exactly while a probe is out, and only one is. */
  ghost predicate ProbeExact(s: State, endpoint: string) {
    && (At(s.circuits, endpoint).probe <==> exists i: nat :: Outstanding(s, i, endpoint))
    && (forall i: nat, j: nat | Outstanding(s, i, endpoint) && Outstanding(s, j, endpoint) :: i == j)
  }

  /** The step lowers the flag while a probe is out: some other permit reports, or a reset. */
  predicate Forgets(s: State, a: Action, endpoint: string) {
    && At(s.circuits, endpoint).probe
    && match a
       case Allow(_, _) => false
       case Release(i, _) =>
         i < |s.tokens| && !s.tokens[i].used && s.tokens[i].endpoint == endpoint && !s.tokens[i].probe
       case Reset(e) => e == endpoint
  }

  /** A step keeps the probe flag truthful exactly when it does not forget an outstanding probe. */
  lemma ProbeExactKept(s: State, limits: Limits, a: Action, endpoint: string)
    requires ProbeExact(s, endpoint)
    ensures ProbeExact(Exec(s, limits, a), endpoint) <==> !Forgets(s, a, endpoint)
  {
    var t := Exec(s, limits, a);
    var touched := if a.Release? then a.token else |s.tokens|;
    forall i: nat | i != touched
      ensures Outstanding(t, i, endpoint) <==> Outstanding(s, i, endpoint)
    {
    }
    if At(s.circuits, endpoint).probe {
      var probe: nat :| Outstanding(s, probe, endpoint);
      if a == Release(probe, true) || a == Release(probe, false) {
        forall i: nat ensures !Outstanding(t, i, endpoint) {}
      } else {
        assert Outstanding(t, probe, endpoint);
        forall i: nat | Outstanding(t, i, endpoint) ensures i == probe {
          assert i < |s.tokens| ==> Outstanding(s, i, endpoint);
        }
        assert a.Release? ==> a.token != probe && !Outstanding(s, a.token, endpoint);
      }
    } else {
      assert forall i: nat :: !Outstanding(s, i, endpoint);
      forall i: nat | Outstanding(t, i, endpoint) ensures i == |s.tokens| && At(t.circuits, endpoint).probe {}
      if At(t.circuits, endpoint).probe {
        assert Outstanding(t, |s.tokens|, endpoint);
      }
    }
  }

  /** A run in which no step forgets an outstanding probe never has two of them out. */
  lemma {:induction false} AtMostOneProbe(limits: Limits, actions: seq<Action>, endpoint: string)
    requires forall i | 0 <= i < |actions| :: !Forgets(Run(limits, actions[..i]), actions[i], endpoint)
    ensures ProbeExact(Run(limits, actions), endpoint)
  {
    if actions != [] {
      var front := actions[..|actions| - 1];
      forall i | 0 <= i < |front| ensures !Forgets(Run(limits, front[..i]), front[i], endpoint) {
        assert front[..i] == actions[..i];
      }
      AtMostOneProbe(limits, front, endpoint);
      ProbeExactKept(Run(limits, front), limits, actions[|front|], endpoint);
    }
  }

  /** So in such runs the cooldown and a probe that is still out are the only grounds for a refusal. */
  lemma RefusesForProbeExactly(limits: Limits, actions: seq<Action>, endpoint: string, now: Time)
    requires forall i | 0 <= i < |actions| :: !Forgets(Run(limits, actions[..i]), actions[i], endpoint)
    ensures var s := Run(limits, actions);
            !Admits(At(s.circuits, endpoint), now) <==>
            && Tripped(s.reports, limits, endpoint)
            && (now < CooledAt(s.reports, limits, endpoint) || exists i: nat :: Outstanding(s, i, endpoint))
  {
    AtMostOneProbe(limits, actions, endpoint);
    RefusesExactly(limits, actions, endpoint, now);
  }

  /** Two probes at once: a permit from before the circuit opened reports while the probe is
      out, lowers the flag, and the next call is admitted as a second probe. */
  lemma TwoProbes()
    ensures var run := [Allow("e", 0), Allow("e", 0), Release(0, false), Allow("e", 10), Release(1, false),
                        Allow("e", 20)];
            var s := Run(Limits(1, 5), run);
            Outstanding(s, 2, "e") && Outstanding(s, 3, "e")
  {
    var limits := Limits(1, 5);
    var run := [Allow("e", 0), Allow("e", 0), Release(0, false), Allow("e", 10), Release(1, false), Allow("e", 20)];
    assert run[..5][..4] == run[..4] && run[..4][..3] == run[..3] && run[..3][..2] == run[..2] &&
      run[..2][..1] == run[..1];
    assert run[..1][..0] == [];
    assert Run(limits, run[..1]) == Exec(INITIAL, limits, run[0]);
    assert Run(limits, run[..2]) == Exec(Run(limits, run[..1]), limits, run[1]);
    assert Run(limits, run[..3]) == Exec(Run(limits, run[..2]), limits, run[2]);
    assert Run(limits, run[..4]) == Exec(Run(limits, run[..3]), limits, run[3]);
    assert Run(limits, run[..5]) == Exec(Run(limits, run[..4]), limits, run[4]);
  }
}
