/** Endpoint health: the success rate over a sliding window whose history is pruned at every query. */
module Health {
  import opened Core
  import opened Lists

  datatype Observation = Observation(endpoint: string, at: Time, success: bool)

  function Since(cutoff: Time): Observation -> bool {
    (o: Observation) => o.at > cutoff
  }

  function Succeeded(): Observation -> bool {
    (o: Observation) => o.success
  }

  /** What a window ending now still sees of a history. */
  function Recent(history: seq<Observation>, cutoff: Time): seq<Observation> {
    Keep(history, Since(cutoff))
  }

  function Successes(history: seq<Observation>): nat {
    |Keep(history, Succeeded())|
  }

  /** The share of successes; no rate without observations. */
  function Rate(history: seq<Observation>): Option<real> {
    if history == [] then None else Some(Successes(history) as real / |history| as real)
  }

  predicate Passes(rate: Option<real>, threshold: real) {
    rate.None? || rate.value >= threshold
  }

  lemma {:induction false} AllSucceed(history: seq<Observation>)
    ensures Successes(history) <= |history|
    ensures Successes(history) == |history| <==> forall i | 0 <= i < |history| :: history[i].success
  {
    if history != [] {
      AllSucceed(history[..|history| - 1]);
    }
  }

  /** A rate is a fraction, and one exactly when nothing recent failed. */
  lemma RateIsFraction(history: seq<Observation>)
    requires history != []
    ensures 0.0 <= Rate(history).value <= 1.0
    ensures Rate(history).value == 1.0 <==> forall i | 0 <= i < |history| :: history[i].success
  {
    AllSucceed(history);
    FractionOf(Successes(history) as real, |history| as real);
  }

  lemma FractionOf(s: real, n: real)
    requires 0.0 <= s <= n && n > 0.0
    ensures 0.0 <= s / n <= 1.0
    ensures s / n == 1.0 <==> s == n
  {
    var q := s / n;
    assert q * n == s;
    assert q > 1.0 ==> q * n > n;
    assert q < 0.0 ==> q * n < 0.0;
  }

  /** Where a history holds a success. */
  ghost function SuccessesAt(history: seq<Observation>): set<int> {
    set i | 0 <= i < |history| && history[i].success
  }

  lemma SuccessesCounted(history: seq<Observation>)
    ensures |SuccessesAt(history)| == Successes(history)
  {
    KeepCounts(history, Succeeded());
    assert SuccessesAt(history) == Positions(history, Succeeded());
  }

  /** The rate times the number of observations is the number of successes among them. */
  lemma RateCounts(history: seq<Observation>)
    requires history != []
    ensures Rate(history).value * |history| as real == |SuccessesAt(history)| as real
  {
    SuccessesCounted(history);
    Quotient(Successes(history) as real, |history| as real);
  }

  lemma Quotient(s: real, n: real)
    requires n > 0.0
    ensures s / n * n == s
  {
  }

  lemma AtLeast(rate: real, n: real, threshold: real)
    requires n > 0.0
    ensures rate >= threshold <==> rate * n >= threshold * n
  {
    if rate >= threshold { assert (rate - threshold) * n >= 0.0; } else { assert (threshold - rate) * n > 0.0; }
  }

  /** Healthy means: nothing observed, or enough of it succeeded. */
  lemma PassesCounts(history: seq<Observation>, threshold: real)
    ensures Passes(Rate(history), threshold) <==>
            history == [] || |SuccessesAt(history)| as real >= threshold * |history| as real
  {
    if history != [] {
      RateCounts(history);
      AtLeast(Rate(history).value, |history| as real, threshold);
    }
  }

  // ---------- Pruning over runs ----------

  type Histories = map<string, seq<Observation>>

  function HistoryOf(h: Histories, endpoint: string): seq<Observation> {
    if endpoint in h then h[endpoint] else []
  }

  datatype Action =
    | Observe(endpoint: string, success: bool, at: Time)
    | Query(endpoint: string, at: Time)

  function Observed(h: Histories, endpoint: string, success: bool, now: Time): Histories {
    h[endpoint := HistoryOf(h, endpoint) + [Observation(endpoint, now, success)]]
  }

  /** A query forgets what its window no longer sees. */
  function Pruned(h: Histories, endpoint: string, cutoff: Time): Histories {
    h[endpoint := Recent(HistoryOf(h, endpoint), cutoff)]
  }

  function Exec(window: Duration, h: Histories, a: Action): Histories {
    match a
    case Observe(endpoint, success, at) => Observed(h, endpoint, success, at)
    case Query(endpoint, at) => Pruned(h, endpoint, at - window)
  }

  function Run(window: Duration, actions: seq<Action>): Histories {
    if actions == [] then map[]
    else Exec(window, Run(window, actions[..|actions| - 1]), actions[|actions| - 1])
  }

  function Seen(a: Action, endpoint: string): seq<Observation> {
    if a.Observe? && a.endpoint == endpoint then [Observation(endpoint, a.at, a.success)] else []
  }

  /** Every observation of an endpoint in the run, none pruned. */
  function Everything(actions: seq<Action>, endpoint: string): seq<Observation> {
    if actions == [] then []
    else Everything(actions[..|actions| - 1], endpoint) + Seen(actions[|actions| - 1], endpoint)
  }

  /** No query for `endpoint` in the run came later than `now`. */
  ghost predicate QueriedBy(actions: seq<Action>, endpoint: string, now: Time) {
    forall i | 0 <= i < |actions| :: actions[i].Query? && actions[i].endpoint == endpoint ==> actions[i].at <= now
  }

  /** Pruning at one cutoff hides nothing from a second exactly when no observation lies between them. */
  lemma PruningHidesBetween(history: seq<Observation>, first: Time, second: Time)
    ensures Recent(Recent(history, first), second) == Recent(history, second) <==>
            forall o | o in history :: second < o.at ==> first < o.at
  {
    if forall o | o in history :: second < o.at ==> first < o.at {
      KeepTwice(history, Since(first), Since(second), Since(second));
    } else {
      var o :| o in history && second < o.at <= first;
      KeepMembers(history, Since(second), o);
      KeepMembers(history, Since(first), o);
      KeepMembers(Recent(history, first), Since(second), o);
    }
  }

  // ---------- Exactly when a window is seen whole ----------

  /** A query of the endpoint cut off an observation before it that a window starting at `cutoff` should show. */
  predicate CutOff(window: Duration, actions: seq<Action>, endpoint: string, cutoff: Time) {
    actions != [] &&
    var before, last := actions[..|actions| - 1], actions[|actions| - 1];
    CutOff(window, before, endpoint, cutoff) ||
      exists i | 0 <= i < |before| :: Cuts(window, before[i], last, endpoint, cutoff)
  }

  predicate Cuts(window: Duration, seen: Action, asked: Action, endpoint: string, cutoff: Time) {
    && seen.Observe? && seen.endpoint == endpoint && asked.Query? && asked.endpoint == endpoint
    && cutoff < seen.at <= asked.at - window
  }

  /** That is, some later query of the endpoint did. */
  lemma {:induction false} CutOffByLaterQuery(window: Duration, actions: seq<Action>, endpoint: string, cutoff: Time)
    ensures CutOff(window, actions, endpoint, cutoff) <==>
            exists i, j | 0 <= i < j < |actions| :: Cuts(window, actions[i], actions[j], endpoint, cutoff)
  {
    if actions != [] {
      var before, last := actions[..|actions| - 1], actions[|actions| - 1];
      CutOffByLaterQuery(window, before, endpoint, cutoff);
      assert forall i | 0 <= i < |before| :: before[i] == actions[i];
      if i :| 0 <= i < |before| && Cuts(window, before[i], last, endpoint, cutoff) {
        assert Cuts(window, actions[i], actions[|before|], endpoint, cutoff);
      }
      if i, j :| 0 <= i < j < |before| && Cuts(window, before[i], before[j], endpoint, cutoff) {
        assert Cuts(window, actions[i], actions[j], endpoint, cutoff);
      }
    }
  }

  lemma {:induction false} ObservedIn(actions: seq<Action>, endpoint: string, o: Observation)
    ensures o in Everything(actions, endpoint) <==>
            o.endpoint == endpoint && exists i | 0 <= i < |actions| :: actions[i] == Observe(endpoint, o.success, o.at)
  {
    if actions != [] {
      var before, last := actions[..|actions| - 1], actions[|actions| - 1];
      ObservedIn(before, endpoint, o);
      if i :| 0 <= i < |before| && before[i] == Observe(endpoint, o.success, o.at) {
        assert actions[i] == before[i];
      }
    }
  }

  lemma CutsSeen(window: Duration, before: seq<Action>, last: Action, endpoint: string, cutoff: Time)
    ensures (exists i | 0 <= i < |before| :: Cuts(window, before[i], last, endpoint, cutoff)) <==>
            && last.Query? && last.endpoint == endpoint
            && exists o :: o in Everything(before, endpoint) && cutoff < o.at <= last.at - window
  {
    if i :| 0 <= i < |before| && Cuts(window, before[i], last, endpoint, cutoff) {
      var o := Observation(endpoint, before[i].at, before[i].success);
      ObservedIn(before, endpoint, o);
    }
    if last.Query? && last.endpoint == endpoint {
      if o :| o in Everything(before, endpoint) && cutoff < o.at <= last.at - window {
        ObservedIn(before, endpoint, o);
        var i :| 0 <= i < |before| && before[i] == Observe(endpoint, o.success, o.at);
        assert Cuts(window, before[i], last, endpoint, cutoff);
      }
    }
  }

  /** A second pruning leaves less of the window exactly when it cuts something off inside it. */
  lemma PruningShrinks(history: seq<Observation>, first: Time, second: Time)
    ensures |Recent(Recent(history, first), second)| <= |Recent(history, second)|
    ensures |Recent(Recent(history, first), second)| == |Recent(history, second)| <==>
            forall o | o in history :: second < o.at ==> first < o.at
  {
    var later := if first < second then second else first;
    KeepTwice(history, Since(first), Since(second), Since(later));
    KeepFewer(history, Since(later), Since(second));
  }

  /** How what is left of a history relates to all of it. */
  predicate Whole(pruned: seq<Observation>, all: seq<Observation>, cutoff: Time, whole: bool) {
    if whole then Recent(pruned, cutoff) == Recent(all, cutoff) else |Recent(pruned, cutoff)| < |Recent(all, cutoff)|
  }

  lemma QueryCuts(pruned: seq<Observation>, all: seq<Observation>, at: Time, cutoff: Time, whole: bool)
    requires Whole(pruned, all, cutoff, whole)
    ensures Whole(Recent(pruned, at), all, cutoff, whole && !exists o :: o in all && cutoff < o.at <= at)
  {
    PruningShrinks(pruned, at, cutoff);
    if whole {
      forall o ensures o in pruned && cutoff < o.at <==> o in all && cutoff < o.at {
        KeepMembers(pruned, Since(cutoff), o);
        KeepMembers(all, Since(cutoff), o);
      }
      if forall o | o in pruned :: cutoff < o.at ==> at < o.at {
        PruningHidesBetween(pruned, at, cutoff);
      }
    }
  }

  lemma {:induction false} WholeUnlessCutOff(window: Duration, actions: seq<Action>, endpoint: string, cutoff: Time)
    ensures Whole(HistoryOf(Run(window, actions), endpoint), Everything(actions, endpoint), cutoff,
                  !CutOff(window, actions, endpoint, cutoff))
  {
    if actions != [] {
      var before, last := actions[..|actions| - 1], actions[|actions| - 1];
      WholeUnlessCutOff(window, before, endpoint, cutoff);
      CutsSeen(window, before, last, endpoint, cutoff);
      ExecWhole(window, Run(window, before), Everything(before, endpoint), last, endpoint, cutoff,
                !CutOff(window, before, endpoint, cutoff));
    }
  }

  lemma SeenOneMore(pruned: seq<Observation>, all: seq<Observation>, o: Observation, cutoff: Time, whole: bool)
    requires Whole(pruned, all, cutoff, whole)
    ensures Whole(pruned + [o], all + [o], cutoff, whole)
  {
    KeepOneMore(pruned, o, Since(cutoff));
    KeepOneMore(all, o, Since(cutoff));
  }

  lemma ExecWhole(window: Duration, h: Histories, all: seq<Observation>, a: Action, endpoint: string, cutoff: Time,
                  whole: bool)
    requires Whole(HistoryOf(h, endpoint), all, cutoff, whole)
    ensures var cut := a.Query? && a.endpoint == endpoint && exists o :: o in all && cutoff < o.at <= a.at - window;
            Whole(HistoryOf(Exec(window, h, a), endpoint), all + Seen(a, endpoint), cutoff, whole && !cut)
  {
    var pruned := HistoryOf(h, endpoint);
    if a.endpoint != endpoint {
      assert all + Seen(a, endpoint) == all;
    } else if a.Observe? {
      SeenOneMore(pruned, all, Observation(endpoint, a.at, a.success), cutoff, whole);
    } else {
      assert all + Seen(a, endpoint) == all;
      QueryCuts(pruned, all, a.at - window, cutoff, whole);
    }
  }

  /** Over a whole run, at any time: the window is seen whole exactly when no later query of the endpoint has cut
      off an observation inside it. */
  lemma SeenWholeExactly(window: Duration, actions: seq<Action>, endpoint: string, now: Time)
    ensures Recent(HistoryOf(Run(window, actions), endpoint), now - window) ==
            Recent(Everything(actions, endpoint), now - window) <==>
            !CutOff(window, actions, endpoint, now - window)
  {
    var cutoff := now - window;
    WholeUnlessCutOff(window, actions, endpoint, cutoff);
    WholeMeansEqual(HistoryOf(Run(window, actions), endpoint), Everything(actions, endpoint), cutoff,
                    !CutOff(window, actions, endpoint, cutoff));
  }

  lemma WholeMeansEqual(pruned: seq<Observation>, all: seq<Observation>, cutoff: Time, whole: bool)
    requires Whole(pruned, all, cutoff, whole)
    ensures Recent(pruned, cutoff) == Recent(all, cutoff) <==> whole
  {
  }

  /** Pruning never shows to a query no earlier than those before it. */
  lemma PruningIsInvisible(window: Duration, actions: seq<Action>, endpoint: string, now: Time)
    requires QueriedBy(actions, endpoint, now)
    ensures Recent(HistoryOf(Run(window, actions), endpoint), now - window) ==
            Recent(Everything(actions, endpoint), now - window)
  {
    SeenWholeExactly(window, actions, endpoint, now);
    EarlierQueriesCutNothing(window, actions, endpoint, now);
  }

  lemma EarlierQueriesCutNothing(window: Duration, actions: seq<Action>, endpoint: string, now: Time)
    requires QueriedBy(actions, endpoint, now)
    ensures !CutOff(window, actions, endpoint, now - window)
  {
    CutOffByLaterQuery(window, actions, endpoint, now - window);
  }

  /** So the rate and the verdict a query gives are those over the full, unpruned history. */
  lemma RateOverFullHistory(window: Duration, actions: seq<Action>, endpoint: string, now: Time, threshold: real)
    requires QueriedBy(actions, endpoint, now)
    ensures var asked := HistoryOf(Run(window, actions + [Query(endpoint, now)]), endpoint);
            var all := Recent(Everything(actions, endpoint), now - window);
            Rate(asked) == Rate(all) && Passes(Rate(asked), threshold) == Passes(Rate(all), threshold)
  {
    AskedIsRecent(window, actions, endpoint, now);
    PruningIsInvisible(window, actions, endpoint, now);
  }

  lemma AskedIsRecent(window: Duration, actions: seq<Action>, endpoint: string, now: Time)
    ensures HistoryOf(Run(window, actions + [Query(endpoint, now)]), endpoint) ==
            Recent(HistoryOf(Run(window, actions), endpoint), now - window)
  {
    RunOneMore(window, actions, Query(endpoint, now));
    QueriedHistory(Run(window, actions), endpoint, now - window);
  }

  lemma RunOneMore(window: Duration, actions: seq<Action>, a: Action)
    ensures Run(window, actions + [a]) == Exec(window, Run(window, actions), a)
  {
    assert (actions + [a])[..|actions|] == actions;
  }

  lemma QueriedHistory(h: Histories, endpoint: string, cutoff: Time)
    ensures HistoryOf(Pruned(h, endpoint, cutoff), endpoint) == Recent(HistoryOf(h, endpoint), cutoff)
  {
  }

  /** The observations of the run that a window starting at `cutoff` should show. */
  ghost function SeenSince(actions: seq<Action>, endpoint: string, cutoff: Time): set<int> {
    set i | 0 <= i < |actions| && actions[i].Observe? && actions[i].endpoint == endpoint && cutoff < actions[i].at
  }

  ghost function SucceededSince(actions: seq<Action>, endpoint: string, cutoff: Time): set<int> {
    set i | i in SeenSince(actions, endpoint, cutoff) && actions[i].success
  }

  /** The actions that observe what `p` picks. */
  function Observes(endpoint: string, p: Observation -> bool): Action -> bool {
    (a: Action) => a.Observe? && a.endpoint == endpoint && p(Observation(endpoint, a.at, a.success))
  }

  lemma {:induction false} ObservationsCounted(actions: seq<Action>, endpoint: string, p: Observation -> bool)
    ensures |Positions(actions, Observes(endpoint, p))| == |Keep(Everything(actions, endpoint), p)|
  {
    if actions != [] {
      var front, a := actions[..|actions| - 1], actions[|actions| - 1];
      ObservationsCounted(front, endpoint, p);
      PositionsOfLast(actions, Observes(endpoint, p));
      SeenKept(Everything(front, endpoint), a, endpoint, p);
    }
  }

  lemma SeenKept(before: seq<Observation>, a: Action, endpoint: string, p: Observation -> bool)
    ensures |Keep(before + Seen(a, endpoint), p)| == |Keep(before, p)| + if Observes(endpoint, p)(a) then 1 else 0
  {
    if a.Observe? && a.endpoint == endpoint {
      KeepOneMore(before, Observation(endpoint, a.at, a.success), p);
    } else {
      assert before + [] == before;
    }
  }

  function SucceededAfter(cutoff: Time): Observation -> bool {
    (o: Observation) => o.at > cutoff && o.success
  }

  lemma WindowCounts(actions: seq<Action>, endpoint: string, cutoff: Time)
    ensures |SeenSince(actions, endpoint, cutoff)| == |Recent(Everything(actions, endpoint), cutoff)|
    ensures |SucceededSince(actions, endpoint, cutoff)| == Successes(Recent(Everything(actions, endpoint), cutoff))
  {
    ObservationsCounted(actions, endpoint, Since(cutoff));
    assert SeenSince(actions, endpoint, cutoff) == Positions(actions, Observes(endpoint, Since(cutoff)));
    ObservationsCounted(actions, endpoint, SucceededAfter(cutoff));
    assert SucceededSince(actions, endpoint, cutoff) == Positions(actions, Observes(endpoint, SucceededAfter(cutoff)));
    KeepTwice(Everything(actions, endpoint), Since(cutoff), Succeeded(), SucceededAfter(cutoff));
  }

  lemma AskedShowsAll(window: Duration, actions: seq<Action>, endpoint: string, now: Time)
    requires !CutOff(window, actions, endpoint, now - window)
    ensures HistoryOf(Run(window, actions + [Query(endpoint, now)]), endpoint) ==
            Recent(Everything(actions, endpoint), now - window)
  {
    AskedIsRecent(window, actions, endpoint, now);
    SeenWholeExactly(window, actions, endpoint, now);
  }

  /** The right answers when `good` of `n` observations succeeded: no rate without any, else their share, and
      healthy when that share reaches the threshold. */
  predicate RightFor(rate: Option<real>, threshold: real, n: nat, good: nat) {
    && (rate.None? <==> n == 0)
    && (rate.Some? ==> rate.value * n as real == good as real)
    && (Passes(rate, threshold) <==> n == 0 || good as real >= threshold * n as real)
  }

  lemma RightForCounts(history: seq<Observation>, threshold: real, n: nat, good: nat)
    requires |history| == n && |SuccessesAt(history)| == good
    ensures RightFor(Rate(history), threshold, n, good)
  {
    if history != [] {
      RateCounts(history);
    }
    PassesCounts(history, threshold);
  }

  /** Unless an earlier query looked further ahead and cut something off, a query answers for the run itself: by as
      many observations as the run made in its window, and as many successes. */
  lemma AnswersForRun(window: Duration, actions: seq<Action>, endpoint: string, now: Time, threshold: real)
    requires !CutOff(window, actions, endpoint, now - window)
    ensures RightFor(Rate(HistoryOf(Run(window, actions + [Query(endpoint, now)]), endpoint)), threshold,
                     |SeenSince(actions, endpoint, now - window)|, |SucceededSince(actions, endpoint, now - window)|)
  {
    AskedShowsAll(window, actions, endpoint, now);
    ShownAnswers(HistoryOf(Run(window, actions + [Query(endpoint, now)]), endpoint), actions, endpoint, now - window,
                 threshold);
  }

  lemma ShownAnswers(shown: seq<Observation>, actions: seq<Action>, endpoint: string, cutoff: Time, threshold: real)
    requires shown == Recent(Everything(actions, endpoint), cutoff)
    ensures RightFor(Rate(shown), threshold, |SeenSince(actions, endpoint, cutoff)|,
                     |SucceededSince(actions, endpoint, cutoff)|)
  {
    ShownCounts(shown, actions, endpoint, cutoff);
    RightForCounts(shown, threshold, |SeenSince(actions, endpoint, cutoff)|,
                   |SucceededSince(actions, endpoint, cutoff)|);
  }

  lemma ShownCounts(shown: seq<Observation>, actions: seq<Action>, endpoint: string, cutoff: Time)
    requires shown == Recent(Everything(actions, endpoint), cutoff)
    ensures |shown| == |SeenSince(actions, endpoint, cutoff)|
    ensures |SuccessesAt(shown)| == |SucceededSince(actions, endpoint, cutoff)|
  {
    WindowCounts(actions, endpoint, cutoff);
    SuccessesCounted(shown);
  }

  /** A query that looks back before an earlier one may find its window emptied. */
  lemma LookingBackMisses() returns (window: Duration, actions: seq<Action>, endpoint: string, now: Time)
    ensures !QueriedBy(actions, endpoint, now)
    ensures Rate(Recent(HistoryOf(Run(window, actions), endpoint), now - window)) == None
    ensures Rate(Recent(Everything(actions, endpoint), now - window)) == Some(0.0)
  {
    window, endpoint, now := 10, "e", 5;
    var seen, asked := Observe("e", false, 0), Query("e", 20);
    var o := Observation("e", 0, false);
    actions := [seen, asked];
    assert actions[1].Query?;
    assert actions[..1] == [seen] && [seen][..0] == [];
    assert [] + [o] == [o];
    OneObservation(o, 10, -5);
    assert Exec(10, map[], seen) == map["e" := [o]] by {
      assert HistoryOf(map[], "e") == [];
    }
    assert Run(10, [seen]) == map["e" := [o]];
    assert HistoryOf(Run(10, actions), "e") == [];
    assert Everything([seen], "e") == [] + [o];
    assert Everything(actions, "e") == [o] + [];
  }

  lemma OneObservation(o: Observation, late: Time, early: Time)
    requires early < o.at <= late && !o.success
    ensures Recent([o], late) == [] && Recent([o], early) == [o] && Rate([o]) == Some(0.0)
  {
    assert [] + [o] == [o];
    KeepOneMore([], o, Since(late));
    KeepOneMore([], o, Since(early));
    KeepOneMore([], o, Succeeded());
  }

  method Kept(history: seq<Observation>, cutoff: Time) returns (kept: seq<Observation>)
    ensures kept == Recent(history, cutoff)
  {
    kept := [];
    for i := 0 to |history|
      invariant kept == Recent(history[..i], cutoff)
    {
      KeepOneMore(history[..i], history[i], Since(cutoff));
      assert history[..i + 1] == history[..i] + [history[i]];
      if history[i].at > cutoff {
        kept := kept + [history[i]];
      }
    }
    assert history[..|history|] == history;
  }

  method CountSuccesses(kept: seq<Observation>) returns (success: nat)
    ensures success == Successes(kept)
  {
    success := 0;
    for i := 0 to |kept|
      invariant success == Successes(kept[..i])
    {
      KeepOneMore(kept[..i], kept[i], Succeeded());
      assert kept[..i + 1] == kept[..i] + [kept[i]];
      if kept[i].success {
        success := success + 1;
      }
    }
    assert kept[..|kept|] == kept;
  }

  class HealthTracker {
    const window: Duration
    const threshold: real
    var observations: Histories

    constructor (window: Duration, threshold: real)
      ensures this.window == window && this.threshold == threshold && observations == map[]
    {
      this.window, this.threshold, observations := window, threshold, map[];
    }

    method Observe(endpoint: string, success: bool, now: Time)
      modifies this
      ensures observations == Exec(window, old(observations), Action.Observe(endpoint, success, now))
    {
      var history := HistoryOf(observations, endpoint);
      history := history + [Observation(endpoint, now, success)];
      observations := observations[endpoint := history];
    }

    method SuccessRate(endpoint: string, now: Time) returns (rate: Option<real>)
      modifies this
      ensures observations == Exec(window, old(observations), Query(endpoint, now))
      ensures rate == Rate(HistoryOf(observations, endpoint))
    {
      var kept := Kept(HistoryOf(observations, endpoint), now - window);
      observations := observations[endpoint := kept];
      if |kept| == 0 {
        return None;
      }
      var success := CountSuccesses(kept);
      return Some(success as real / |kept| as real);
    }

    method Healthy(endpoint: string, now: Time) returns (healthy: bool)
      modifies this
      ensures observations == Exec(window, old(observations), Query(endpoint, now))
      ensures healthy == Passes(Rate(HistoryOf(observations, endpoint)), threshold)
    {
      var rate := SuccessRate(endpoint, now);
      if rate.None? {
        return true;
      }
      return rate.value >= threshold;
    }
  }
}
