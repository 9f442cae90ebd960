/** What the events of one incarnation may look like, and what follows from it. */
module LeaseLog {
  import opened Core
  import opened Interleaving

  datatype What = Grants | Completions | Failures | Postponements | Deaths | Revivals

  predicate Is(e: Ev, what: What) {
    match what
    case Grants => e.Grant?
    case Completions => e.Settle? && e.verdict == Completed
    case Failures => e.Settle? && e.verdict == Failed
    case Postponements => e.Settle? && e.verdict == Postponed
    case Deaths => e.Settle? && e.verdict == Died
    case Revivals => e.Revive?
  }

  function Count(log: seq<Ev>, what: What): nat {
    if log == [] then 0
    else Count(log[..|log| - 1], what) + if Is(log[|log| - 1], what) then 1 else 0
  }

  /** `e` may follow `log`: a grant takes the next epoch, and only when nothing terminal came
      last and any lease before it has run out; a settlement settles the grant just before it;
      a revival follows a death. */
  predicate Follows(log: seq<Ev>, e: Ev) {
    match e
    case Grant(_, epoch, now, _) =>
      && epoch == Count(log, Grants) + 1
      && (log != [] ==>
            var l := log[|log| - 1];
            && (l.Grant? ==> l.until <= now)
            && (l.Settle? ==> l.verdict == Failed || l.verdict == Postponed))
    case Settle(proc, epoch, _) =>
      log != [] && var l := log[|log| - 1]; l.Grant? && l.proc == proc && l.epoch == epoch
    case Revive(_) =>
      log != [] && var l := log[|log| - 1]; l.Settle? && l.verdict == Died
  }

  predicate WellLogged(log: seq<Ev>) {
    log == [] || (WellLogged(log[..|log| - 1]) && Follows(log[..|log| - 1], log[|log| - 1]))
  }

  /** Leases settled without completing. */
  function Attempts(log: seq<Ev>): nat {
    Count(log, Failures) + Count(log, Postponements) + Count(log, Deaths)
  }

  /** The earliest time a delivery reserved at `reservedAt` may be leased after `failures`
      failed sends. */
  function Spacing(reservedAt: Time, failures: nat): Time {
    reservedAt + (Pow2(failures) - 1) * SECOND
  }

  predicate WellSpaced(log: seq<Ev>, reservedAt: Time) {
    log == [] ||
    var front, e := log[..|log| - 1], log[|log| - 1];
    && WellSpaced(front, reservedAt)
    && (e.Grant? && Attempts(front) <= 30 ==> Spacing(reservedAt, Count(front, Failures)) <= e.now)
  }

  lemma LogGrows(log: seq<Ev>, e: Ev)
    ensures forall what :: Count(log + [e], what) == Count(log, what) + if Is(e, what) then 1 else 0
    ensures WellLogged(log + [e]) <==> WellLogged(log) && Follows(log, e)
  {
    assert (log + [e])[..|log|] == log;
  }

  lemma SpacingGrows(log: seq<Ev>, e: Ev, reservedAt: Time)
    ensures WellSpaced(log + [e], reservedAt) <==>
            && WellSpaced(log, reservedAt)
            && (e.Grant? && Attempts(log) <= 30 ==> Spacing(reservedAt, Count(log, Failures)) <= e.now)
  {
    assert (log + [e])[..|log|] == log;
  }

  // ---------- Consequences, by position ----------

  lemma {:induction false} PrefixWellLogged(log: seq<Ev>, n: nat)
    requires WellLogged(log) && n <= |log|
    ensures WellLogged(log[..n]) && (n < |log| ==> Follows(log[..n], log[n]))
  {
    if n < |log| {
      var front := log[..|log| - 1];
      assert front[..n] == log[..n];
      if n < |front| {
        PrefixWellLogged(front, n);
      }
    } else {
      assert log[..n] == log;
    }
  }

  lemma {:induction false} CountMonotone(log: seq<Ev>, m: nat, n: nat, what: What)
    requires m <= n <= |log|
    ensures Count(log[..m], what) <= Count(log[..n], what)
    decreases n
  {
    if m < n {
      assert log[..n][..n - 1] == log[..n - 1];
      CountMonotone(log, m, n - 1, what);
    }
  }

  /** A settlement settles the newest grant, made to the settling process just before. */
  lemma SettledByGrantee(log: seq<Ev>, j: nat)
    requires WellLogged(log) && j < |log| && log[j].Settle?
    ensures j > 0 && log[j - 1].Grant? && log[j - 1].proc == log[j].proc && log[j - 1].epoch == log[j].epoch
    ensures log[j].epoch == Count(log[..j], Grants)
  {
    PrefixWellLogged(log, j);
    PrefixWellLogged(log, j - 1);
    assert log[..j][..j - 1] == log[..j - 1];
  }

  /** No epoch is settled twice: later settlements are of later grants. */
  lemma SettledOnce(log: seq<Ev>, i: nat, j: nat)
    requires WellLogged(log) && i < j < |log| && log[i].Settle? && log[j].Settle?
    ensures log[i].epoch < log[j].epoch
  {
    SettledByGrantee(log, i);
    SettledByGrantee(log, j);
    assert log[..j][..j - 1] == log[..j - 1];
    CountMonotone(log, i, j - 1, Grants);
  }

  /** Nothing follows a completion. */
  lemma CompletionIsLast(log: seq<Ev>, j: nat)
    requires WellLogged(log) && j < |log| && log[j].Settle? && log[j].verdict == Completed
    ensures j == |log| - 1
  {
    if j + 1 < |log| {
      PrefixWellLogged(log, j + 1);
    }
  }

  predicate Unsettled(log: seq<Ev>, i: nat) {
    i < |log| && log[i].Grant? && forall k | 0 <= k < |log| && log[k].Settle? :: log[k].epoch != log[i].epoch
  }

  /** A lease that was never settled had run out before the next one was granted. */
  lemma UnsettledHasLapsed(log: seq<Ev>, i: nat, clock: Time)
    requires WellLogged(log) && i < |log| - 1 && Unsettled(log, i)
    requires forall k | 0 <= k < |log| && log[k].Grant? :: log[k].now <= clock
    ensures log[i].until <= clock
  {
    PrefixWellLogged(log, i + 1);
    assert log[..i + 1][|log[..i + 1]| - 1] == log[i];
  }

  lemma {:induction false} WellSpacedAt(log: seq<Ev>, reservedAt: Time, j: nat)
    requires WellSpaced(log, reservedAt) && j < |log| && log[j].Grant? && Attempts(log[..j]) <= 30
    ensures Spacing(reservedAt, Count(log[..j], Failures)) <= log[j].now
  {
    if j < |log| - 1 {
      assert log[..|log| - 1][..j] == log[..j];
      WellSpacedAt(log[..|log| - 1], reservedAt, j);
    }
  }

  /** In a well-spaced log every grant up to attempt 30 comes late enough for the failures before it. */
  lemma GrantsSpaced(log: seq<Ev>, reservedAt: Time)
    requires WellSpaced(log, reservedAt)
    ensures forall j | 0 <= j < |log| && log[j].Grant? && Attempts(log[..j]) <= 30 ::
              Spacing(reservedAt, Count(log[..j], Failures)) <= log[j].now
  {
    forall j | 0 <= j < |log| && log[j].Grant? && Attempts(log[..j]) <= 30
      ensures Spacing(reservedAt, Count(log[..j], Failures)) <= log[j].now
    {
      WellSpacedAt(log, reservedAt, j);
    }
  }
}
