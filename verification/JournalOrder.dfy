/** When the journal agrees with the store under interleaving, and which calls break the agreement. */
module JournalOrder {
  import opened Core
  import Journal
  import AtomicRuns
  import opened Transactions
  import opened Interleaving
  import opened LeaseInvariant
  import opened LeaseSteps
  import opened LeaseTheorems
  import opened Targets

  /** An entry is true of a delivery: Pending of one still to be made, Delivered of a delivered one, Dead of a
      dead one; Pending and Dead also of one that was rolled back. */
  predicate True(transition: DeliveryState, d: Option<Delivery>) {
    match transition
    case Pending => d.None? || !d.value.Terminal()
    case Delivered => d.Some? && d.value.state == Delivered
    case Dead => d.None? || d.value.state == Dead
    case Leased => false
  }

  /** The newest entry about a delivery is true of it; what the journal does not know is not there. */
  predicate Tells(d: Option<Delivery>, last: Option<Journal.Entry>) {
    match last
    case None => d.None?
    case Some(e) => True(e.transition, d)
  }

  predicate TellsOf(s: State, id: string) {
    Tells(Lookup(s.relay.store.deliveries, id), Journal.Last(s.relay.journal, id))
  }

  /** In runs of whole operations this is the agreement proved there, less the lost Delivered entries. */
  lemma AgreementTells(d: Option<Delivery>, last: Option<Journal.Entry>, lost: bool)
    requires AtomicRuns.Agrees(d, last, lost)
    ensures Tells(d, last) <==> !lost
  {
  }

  /** In any state whatever, an entry that the journal takes leaves it in agreement about its delivery exactly
      when, at that moment, the store says of the delivery what the entry says. */
  lemma AppendAgreesExactly(s: State, env: Setup, w: Worker, p: nat, next: Option<string>, failure: Option<string>)
    requires p < |s.procs| && Owed(env, s.procs[p]).Some?
    ensures var n := Owed(env, s.procs[p]).value;
            TellsOf(Advance(s, env, w, p, next, failure, false), n.id) <==>
            True(n.transition, Lookup(s.relay.store.deliveries, n.id))
  {
    var n := Owed(env, s.procs[p]).value;
    CallWrites(s, env, w, p, next, failure, false);
    Journal.LastAfterRecord(s.relay.journal, n.id, n.event, n.transition, n.at);
  }

  // ---------- What is still to come ----------

  datatype Kind = Gone | Unfinished | Made | GivenUp

  function KindOf(d: Option<Delivery>): Kind {
    if d.None? then Gone
    else if d.value.state == Delivered then Made
    else if d.value.state == Dead then GivenUp
    else Unfinished
  }

  function KindAt(s: State, id: string): Kind {
    KindOf(Lookup(s.relay.store.deliveries, id))
  }

  function LastAt(s: State, id: string): Option<Journal.Entry> {
    Journal.Last(s.relay.journal, id)
  }

  /** The key's reservation is for its id, so a rollback would remove the delivery. */
  predicate Reserves(s: State, env: Setup, key: string, id: string) {
    var reserved := s.relay.store.reserved;
    env.idOf(key) == id && (if key in reserved then reserved[key] else "") == id
  }

  /** The next call of a process at `pc` would bring the journal and the store together about `id`: by an entry
      that is true, by reviving a dead delivery, or by rolling a reservation back. A retry's Pending entry brings
      nothing, since backing off leaves the delivery unfinished as it was. */
  predicate Mends(s: State, env: Setup, pc: PC, id: string) {
    match pc
    case AtRevive(job) => job.id == id && KindAt(s, id) == GivenUp
    case AtRollback(event, _, _, journaled) => !journaled && Reserves(s, env, event.key, id)
    case AtJournalPending(_, _) => false
    case _ =>
      Owed(env, pc).Some? && Owed(env, pc).value.id == id
      && True(Owed(env, pc).value.transition, Lookup(s.relay.store.deliveries, id))
  }

  /** The agreement holds, or some process is about to restore it. */
  ghost predicate Mended(s: State, env: Setup, id: string) {
    TellsOf(s, id) || exists p: nat :: p < |s.procs| && Mends(s, env, s.procs[p], id)
  }

  // ---------- The calls that spoil it ----------

  /** An entry that is taken and not true. */
  predicate Misleads(s: State, env: Setup, pc: PC, id: string) {
    Owed(env, pc).Some? && Owed(env, pc).value.id == id
    && !True(Owed(env, pc).value.transition, Lookup(s.relay.store.deliveries, id))
  }

  /** An entry that is rejected and was needed. A retry's entry never is, nor that of a delivery which is dead,
      since it is revived, nor that of a reservation which can still be rolled back. */
  predicate Deprives(s: State, env: Setup, pc: PC, id: string) {
    && Mends(s, env, pc, id) && Owed(env, pc).Some? && !TellsOf(s, id)
    && !(pc.AtJournalDead? && KindAt(s, id) == GivenUp)
    && !(pc.AtAdmit? && Reserves(s, env, pc.event.key, id))
  }

  /** A revival after another's Dead entry was taken, or a rollback after another's Delivered entry was. */
  predicate Overtakes(s: State, env: Setup, pc: PC, id: string) {
    || (pc.AtRevive? && pc.job.id == id && KindAt(s, id) == GivenUp
        && !(LastAt(s, id).Some? && LastAt(s, id).value.transition == Pending))
    || (pc.AtRollback? && !pc.journaled && Reserves(s, env, pc.event.key, id) && !Tells(None, LastAt(s, id)))
  }

  predicate Spoils(s: State, env: Setup, a: Action, id: string) {
    && a.Go? && a.p < |s.procs|
    && var pc := s.procs[a.p];
    Overtakes(s, env, pc, id) || if a.reject then Deprives(s, env, pc, id) else Misleads(s, env, pc, id)
  }

  // ---------- One call ----------

  /** Nothing that matters about `id` is different. */
  ghost predicate Same(s: State, t: State, env: Setup, id: string) {
    && KindAt(t, id) == KindAt(s, id) && LastAt(t, id) == LastAt(s, id)
    && forall key | env.idOf(key) == id :: Lookup(t.relay.store.reserved, key) == Lookup(s.relay.store.reserved, key)
  }

  lemma SameMends(s: State, t: State, env: Setup, pc: PC, id: string)
    requires Same(s, t, env, id)
    ensures TellsOf(t, id) == TellsOf(s, id) && Mends(t, env, pc, id) == Mends(s, env, pc, id)
  {
    var d, d' := Lookup(s.relay.store.deliveries, id), Lookup(t.relay.store.deliveries, id);
    if Owed(env, pc).Some? {
      TrueOfKind(Owed(env, pc).value.transition, d, d');
    }
    if LastAt(s, id).Some? {
      TrueOfKind(LastAt(s, id).value.transition, d, d');
    }
  }

  lemma TrueOfKind(transition: DeliveryState, d: Option<Delivery>, d': Option<Delivery>)
    requires KindOf(d) == KindOf(d')
    ensures True(transition, d) == True(transition, d')
  {
  }

  predicate MovesOnly(s: State, t: State, p: nat) {
    p < |s.procs| && |t.procs| == |s.procs| && t.procs == s.procs[p := t.procs[p]]
  }

  /** After a call of `p`: agreement, or `p` is about to restore it, or all is as before and `p` was not. */
  ghost predicate Settles(s: State, t: State, env: Setup, p: nat, id: string) {
    && MovesOnly(s, t, p)
    && (TellsOf(t, id) || Mends(t, env, t.procs[p], id) || (Same(s, t, env, id) && !Mends(s, env, s.procs[p], id)))
  }

  lemma SettlesKeeps(s: State, t: State, env: Setup, p: nat, id: string)
    requires Mended(s, env, id) && Settles(s, t, env, p, id)
    ensures Mended(t, env, id)
  {
    if !TellsOf(t, id) && !Mends(t, env, t.procs[p], id) {
      SameMends(s, t, env, Idle, id);
      var q: nat :| q < |s.procs| && Mends(s, env, s.procs[q], id);
      SameMends(s, t, env, s.procs[q], id);
      assert t.procs[q] == s.procs[q];
    }
  }

  lemma AcquireSettles(s: State, env: Setup, p: nat, forced: bool, id: string, now: Time)
    requires p < |s.procs| && p < |env.workers| && s.procs[p].AtAcquire?
    ensures Settles(s, Acquire(s, env.workers[p], p, forced, id, now), env, p, id)
  {
  }

  lemma CompleteSettles(s: State, env: Setup, w: Worker, p: nat, job: Job)
    requires p < |s.procs| && s.procs[p].AtComplete?
    ensures Settles(s, Complete(s, w, p, job), env, p, job.id)
  {
  }

  lemma KillSettles(s: State, env: Setup, w: Worker, p: nat, job: Job, cause: Error)
    requires p < |s.procs| && s.procs[p].AtDead?
    ensures Settles(s, Kill(s, w, p, job, cause), env, p, job.id)
  {
  }

  lemma GiveBackSettles(s: State, env: Setup, w: Worker, p: nat, job: Job, cause: Error, deferred: bool)
    requires p < |s.procs| && s.procs[p].AtRetry?
    ensures Settles(s, GiveBack(s, w, p, job, cause, deferred), env, p, job.id)
  {
  }

  lemma ReviveSettles(s: State, env: Setup, p: nat, job: Job)
    requires p < |s.procs| && s.procs[p] == AtRevive(job) && !Overtakes(s, env, s.procs[p], job.id)
    ensures Settles(s, ReviveDead(s, p, job), env, p, job.id)
  {
  }

  lemma ReserveSettles(s: State, env: Setup, p: nat, event: Event, now: Time)
    requires p < |s.procs| && s.procs[p].AtReserve?
    ensures Settles(s, Reserve(s, env, p, event, now), env, p, env.idOf(event.key))
  {
  }

  lemma RollbackSettles(s: State, env: Setup, p: nat, pc: PC)
    requires p < |s.procs| && s.procs[p] == pc && pc.AtRollback? && !Overtakes(s, env, pc, env.idOf(pc.event.key))
    ensures Settles(s, Rollback(s, env, p, pc), env, p, env.idOf(pc.event.key))
  {
  }

  lemma SettlingCall(s: State, env: Setup, p: nat, next: Option<string>, failure: Option<string>, reject: bool,
                     id: string)
    requires p < |s.procs| && p < |env.workers| && Target(env, s.procs[p]) == Some(id)
    requires !Overtakes(s, env, s.procs[p], id)
    ensures Settles(s, Advance(s, env, env.workers[p], p, next, failure, reject), env, p, id)
  {
    var pc, w := s.procs[p], env.workers[p];
    if pc.AtAcquire? {
      AcquireSettles(s, env, p, pc.forced, id, pc.now);
    } else if pc.AtComplete? {
      CompleteSettles(s, env, w, p, pc.job);
    } else if pc.AtDead? {
      KillSettles(s, env, w, p, pc.job, pc.cause);
    } else if pc.AtRetry? {
      GiveBackSettles(s, env, w, p, pc.job, pc.cause, pc.deferred);
    } else if pc.AtRevive? {
      ReviveSettles(s, env, p, pc.job);
    } else if pc.AtReserve? {
      ReserveSettles(s, env, p, pc.event, pc.now);
    } else {
      RollbackSettles(s, env, p, pc);
    }
  }

  // ---------- Calls that do not concern the delivery ----------

  /** The journal is as it was, and so are the reservations that could be the delivery's. */
  ghost predicate Silent(s: State, t: State, env: Setup, p: nat, id: string) {
    && MovesOnly(s, t, p) && t.relay.journal == s.relay.journal
    && forall key | env.idOf(key) == id :: Lookup(t.relay.store.reserved, key) == Lookup(s.relay.store.reserved, key)
  }

  lemma CompleteIsSilent(s: State, env: Setup, w: Worker, p: nat, job: Job, id: string)
    requires p < |s.procs|
    ensures Silent(s, Complete(s, w, p, job), env, p, id)
  {
  }

  lemma KillIsSilent(s: State, env: Setup, w: Worker, p: nat, job: Job, cause: Error, id: string)
    requires p < |s.procs|
    ensures Silent(s, Kill(s, w, p, job, cause), env, p, id)
  {
  }

  lemma GiveBackIsSilent(s: State, env: Setup, w: Worker, p: nat, job: Job, cause: Error, deferred: bool, id: string)
    requires p < |s.procs|
    ensures Silent(s, GiveBack(s, w, p, job, cause, deferred), env, p, id)
  {
  }

  lemma ReviveIsSilent(s: State, env: Setup, p: nat, job: Job, id: string)
    requires p < |s.procs|
    ensures Silent(s, ReviveDead(s, p, job), env, p, id)
  {
  }

  lemma AcquireIsSilent(s: State, env: Setup, w: Worker, p: nat, forced: bool, key: string, now: Time, id: string)
    requires p < |s.procs|
    ensures Silent(s, Acquire(s, w, p, forced, key, now), env, p, id)
  {
  }

  lemma ReserveIsSilent(s: State, env: Setup, p: nat, event: Event, now: Time, id: string)
    requires p < |s.procs| && env.idOf(event.key) != id
    ensures Silent(s, Reserve(s, env, p, event, now), env, p, id)
  {
  }

  lemma RollbackIsSilent(s: State, env: Setup, p: nat, pc: PC, id: string)
    requires p < |s.procs| && pc.AtRollback? && env.idOf(pc.event.key) != id
    ensures Silent(s, Rollback(s, env, p, pc), env, p, id)
  {
  }

  lemma SilentMoves(s: State, env: Setup, w: Worker, p: nat, next: Option<string>, failure: Option<string>,
                    reject: bool, id: string)
    requires p < |s.procs| && Owed(env, s.procs[p]).None? && !Quiet(s.procs[p]) && Target(env, s.procs[p]) != Some(id)
    ensures Silent(s, Advance(s, env, w, p, next, failure, reject), env, p, id)
  {
    var pc := s.procs[p];
    if pc.AtComplete? {
      CompleteIsSilent(s, env, w, p, pc.job, id);
    } else if pc.AtDead? {
      KillIsSilent(s, env, w, p, pc.job, pc.cause, id);
    } else if pc.AtRetry? {
      GiveBackIsSilent(s, env, w, p, pc.job, pc.cause, pc.deferred, id);
    } else if pc.AtRevive? {
      ReviveIsSilent(s, env, p, pc.job, id);
    } else if pc.AtAcquire? {
      AcquireIsSilent(s, env, w, p, pc.forced, pc.key, pc.now, id);
    } else if pc.AtReserve? {
      ReserveIsSilent(s, env, p, pc.event, pc.now, id);
    } else if pc.AtRollback? {
      RollbackIsSilent(s, env, p, pc, id);
    }
  }

  lemma OthersMendNothing(s: State, env: Setup, pc: PC, id: string)
    requires Owed(env, pc).None? && Target(env, pc) != Some(id)
    ensures !Mends(s, env, pc, id)
  {
  }

  /** A call that neither writes an entry nor changes the record of `id`. */
  lemma SilentCall(s: State, env: Setup, p: nat, next: Option<string>, failure: Option<string>, reject: bool,
                   id: string)
    requires Shaped(s, env) && p < |s.procs| && ProcessAt(s, env, p)
    requires Owed(env, s.procs[p]).None? && Target(env, s.procs[p]) != Some(id)
    ensures Settles(s, Advance(s, env, env.workers[p], p, next, failure, reject), env, p, id)
  {
    var t := Advance(s, env, env.workers[p], p, next, failure, reject);
    OthersAlike(s, env, p, next, failure, reject, id);
    OthersMendNothing(s, env, s.procs[p], id);
    if Quiet(s.procs[p]) {
      QuietlyAdvances(s, env, p, next, failure, reject);
    } else {
      SilentMoves(s, env, env.workers[p], p, next, failure, reject, id);
    }
    assert Same(s, t, env, id);
  }

  // ---------- Calls that write ----------

  lemma AcceptedSettles(s: State, env: Setup, p: nat, next: Option<string>, failure: Option<string>, id: string)
    requires p < |s.procs| && p < |env.workers| && Owed(env, s.procs[p]).Some? && Owed(env, s.procs[p]).value.id == id
    requires !Misleads(s, env, s.procs[p], id)
    ensures Settles(s, Advance(s, env, env.workers[p], p, next, failure, false), env, p, id)
  {
    CallWrites(s, env, env.workers[p], p, next, failure, false);
    AppendAgreesExactly(s, env, env.workers[p], p, next, failure);
  }

  lemma RejectedSettles(s: State, env: Setup, p: nat, next: Option<string>, failure: Option<string>, id: string)
    requires p < |s.procs| && p < |env.workers| && Owed(env, s.procs[p]).Some? && Owed(env, s.procs[p]).value.id == id
    requires !Deprives(s, env, s.procs[p], id)
    ensures Settles(s, Advance(s, env, env.workers[p], p, next, failure, true), env, p, id)
  {
    var t := Advance(s, env, env.workers[p], p, next, failure, true);
    CallWrites(s, env, env.workers[p], p, next, failure, true);
    assert Same(s, t, env, id);
    SameMends(s, t, env, t.procs[p], id);
  }

  lemma OtherEntrySettles(s: State, env: Setup, p: nat, next: Option<string>, failure: Option<string>, reject: bool,
                          id: string)
    requires p < |s.procs| && p < |env.workers| && Owed(env, s.procs[p]).Some? && Owed(env, s.procs[p]).value.id != id
    ensures Settles(s, Advance(s, env, env.workers[p], p, next, failure, reject), env, p, id)
  {
    var n := Owed(env, s.procs[p]).value;
    CallWrites(s, env, env.workers[p], p, next, failure, reject);
    Journal.LastAfterRecord(s.relay.journal, n.id, n.event, n.transition, n.at);
  }

  lemma WritingCall(s: State, env: Setup, p: nat, next: Option<string>, failure: Option<string>, reject: bool,
                    id: string)
    requires p < |s.procs| && p < |env.workers| && Owed(env, s.procs[p]).Some?
    requires !Spoils(s, env, Go(p, next, failure, reject), id)
    ensures Settles(s, Advance(s, env, env.workers[p], p, next, failure, reject), env, p, id)
  {
    if Owed(env, s.procs[p]).value.id != id {
      OtherEntrySettles(s, env, p, next, failure, reject, id);
    } else if reject {
      RejectedSettles(s, env, p, next, failure, id);
    } else {
      AcceptedSettles(s, env, p, next, failure, id);
    }
  }

  // ---------- Every action, and runs ----------

  lemma CallSettles(s: State, env: Setup, p: nat, next: Option<string>, failure: Option<string>, reject: bool,
                    id: string)
    requires Shaped(s, env) && p < |s.procs| && ProcessAt(s, env, p)
    requires !Spoils(s, env, Go(p, next, failure, reject), id)
    ensures Settles(s, Advance(s, env, env.workers[p], p, next, failure, reject), env, p, id)
  {
    if Owed(env, s.procs[p]).Some? {
      WritingCall(s, env, p, next, failure, reject, id);
    } else if Target(env, s.procs[p]) == Some(id) {
      SettlingCall(s, env, p, next, failure, reject, id);
    } else {
      SilentCall(s, env, p, next, failure, reject, id);
    }
  }

  lemma OutsideMoves(s: State, env: Setup, a: Action)
    requires !a.Go? || a.p >= |s.procs|
    ensures var t := Exec(s, env, a);
            && t.relay.journal == s.relay.journal && t.relay.store == s.relay.store && |t.procs| == |s.procs|
            && forall p | 0 <= p < |s.procs| :: t.procs[p] == s.procs[p] || s.procs[p] == Idle
  {
  }

  lemma OutsideMended(s: State, t: State, env: Setup, id: string)
    requires Mended(s, env, id) && t.relay.journal == s.relay.journal && t.relay.store == s.relay.store
    requires |t.procs| == |s.procs| && forall p | 0 <= p < |s.procs| :: t.procs[p] == s.procs[p] || s.procs[p] == Idle
    ensures Mended(t, env, id)
  {
    if !TellsOf(s, id) {
      var q: nat :| q < |s.procs| && Mends(s, env, s.procs[q], id);
      SameMends(s, t, env, s.procs[q], id);
      assert t.procs[q] == s.procs[q];
    }
  }

  lemma ExecMends(s: State, env: Setup, a: Action, id: string)
    requires Inv(s, env) && Mended(s, env, id) && !Spoils(s, env, a, id)
    ensures Mended(Exec(s, env, a), env, id)
  {
    if !a.Go? || a.p >= |s.procs| {
      OutsideMoves(s, env, a);
      OutsideMended(s, Exec(s, env, a), env, id);
    } else {
      assert ProcessAt(s, env, a.p);
      CallSettles(s, env, a.p, a.next, a.failure, a.reject, id);
      SettlesKeeps(s, Advance(s, env, env.workers[a.p], a.p, a.next, a.failure, a.reject), env, a.p, id);
    }
  }

  lemma {:induction false} AlwaysMended(env: Setup, clock: Time, actions: seq<Action>, id: string)
    requires Sane(env)
    requires forall i | 0 <= i < |actions| :: !Spoils(Run(env, clock, actions[..i]), env, actions[i], id)
    ensures Mended(Run(env, clock, actions), env, id)
  {
    if actions != [] {
      var front := actions[..|actions| - 1];
      forall i | 0 <= i < |front| ensures !Spoils(Run(env, clock, front[..i]), env, front[i], id) {
        assert front[..i] == actions[..i];
      }
      AlwaysMended(env, clock, front, id);
      AlwaysInv(env, clock, front);
      ExecMends(Run(env, clock, front), env, actions[|front|], id);
    }
  }

  /** The process has yet to write an entry about `id`, to revive it or to roll it back. */
  predicate Owes(env: Setup, pc: PC, id: string) {
    || (Owed(env, pc).Some? && Owed(env, pc).value.id == id)
    || (pc.AtRevive? && pc.job.id == id)
    || (pc.AtRollback? && env.idOf(pc.event.key) == id)
  }

  /** In every interleaving, with whatever entries rejected: if no call of the run spoils the agreement about a
      delivery, then it holds whenever no process has anything about the delivery left to do. */
  lemma UnspoiltRunsAgree(env: Setup, clock: Time, actions: seq<Action>, id: string)
    requires Sane(env)
    requires forall i | 0 <= i < |actions| :: !Spoils(Run(env, clock, actions[..i]), env, actions[i], id)
    requires var s := Run(env, clock, actions);
             forall p | 0 <= p < |s.procs| :: !Owes(env, s.procs[p], id)
    ensures TellsOf(Run(env, clock, actions), id)
  {
    AlwaysMended(env, clock, actions, id);
    var s := Run(env, clock, actions);
    forall p: nat | p < |s.procs| ensures !Mends(s, env, s.procs[p], id) {
      MenderOwes(s, env, s.procs[p], id);
    }
  }

  lemma MenderOwes(s: State, env: Setup, pc: PC, id: string)
    ensures Mends(s, env, pc, id) ==> Owes(env, pc, id)
  {
  }

  lemma RejectionLeavesDisagreement(s: State, env: Setup, w: Worker, p: nat, next: Option<string>,
                                    failure: Option<string>, id: string)
    requires p < |s.procs| && Deprives(s, env, s.procs[p], id)
    ensures !TellsOf(Advance(s, env, w, p, next, failure, true), id)
  {
    CallWrites(s, env, w, p, next, failure, true);
  }

  lemma OvertakingDisagrees(s: State, env: Setup, w: Worker, p: nat, next: Option<string>, failure: Option<string>,
                            reject: bool, id: string)
    requires p < |s.procs| && Overtakes(s, env, s.procs[p], id)
    ensures !TellsOf(Advance(s, env, w, p, next, failure, reject), id)
  {
    if s.procs[p].AtRevive? {
      RevivalDisagrees(s, env, p, s.procs[p].job, id);
    } else {
      RollbackDisagrees(s, env, p, s.procs[p], id);
    }
  }

  lemma RevivalDisagrees(s: State, env: Setup, p: nat, job: Job, id: string)
    requires p < |s.procs| && s.procs[p] == AtRevive(job) && Overtakes(s, env, s.procs[p], id)
    ensures !TellsOf(ReviveDead(s, p, job), id)
  {
  }

  lemma RollbackDisagrees(s: State, env: Setup, p: nat, pc: PC, id: string)
    requires p < |s.procs| && pc.AtRollback? && Overtakes(s, env, pc, id)
    ensures !TellsOf(Rollback(s, env, p, pc), id)
  {
  }

  /** Each of those calls leaves journal and store at odds about the delivery there and then. */
  lemma SpoilingDisagrees(s: State, env: Setup, a: Action, id: string)
    requires Spoils(s, env, a, id) && a.p < |env.workers|
    ensures !TellsOf(Exec(s, env, a), id)
  {
    var w := env.workers[a.p];
    if Overtakes(s, env, s.procs[a.p], id) {
      OvertakingDisagrees(s, env, w, a.p, a.next, a.failure, a.reject, id);
    } else if a.reject {
      RejectionLeavesDisagreement(s, env, w, a.p, a.next, a.failure, id);
    } else {
      AppendAgreesExactly(s, env, w, a.p, a.next, a.failure);
    }
  }
}
