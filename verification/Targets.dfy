/** Which delivery's record each call of the interleaved relay can change. */
module Targets {
  import opened Core
  import opened Transactions
  import opened Interleaving
  import opened LeaseInvariant
  import opened LeaseSteps

  /** The record of `id` is the same in both states. */
  predicate Alike(s: State, t: State, id: string) {
    Lookup(t.relay.store.deliveries, id) == Lookup(s.relay.store.deliveries, id) && Hist(t, id) == Hist(s, id)
  }

  /** The id whose record a process changes by its next call, if it changes one. */
  function Target(env: Setup, pc: PC): Option<string> {
    match pc
    case AtAcquire(_, id, _) => Some(id)
    case AtComplete(job) => Some(job.id)
    case AtDead(job, _) => Some(job.id)
    case AtRevive(job) => Some(job.id)
    case AtRetry(job, _, _) => Some(job.id)
    case AtReserve(event, _) => Some(env.idOf(event.key))
    case AtRollback(event, _, _, _) => Some(env.idOf(event.key))
    case _ => None
  }

  lemma AcquireTargets(s: State, w: Worker, p: nat, forced: bool, key: string, now: Time, id: string)
    requires p < |s.procs| && key != id
    ensures Alike(s, Acquire(s, w, p, forced, key, now), id)
  {
  }

  lemma CompleteTargets(s: State, w: Worker, p: nat, job: Job, id: string)
    requires p < |s.procs| && job.id != id
    ensures Alike(s, Complete(s, w, p, job), id)
  {
  }

  lemma KillTargets(s: State, w: Worker, p: nat, job: Job, cause: Error, id: string)
    requires p < |s.procs| && job.id != id
    ensures Alike(s, Kill(s, w, p, job, cause), id)
  {
  }

  lemma GiveBackTargets(s: State, w: Worker, p: nat, job: Job, cause: Error, deferred: bool, id: string)
    requires p < |s.procs| && job.id != id
    ensures Alike(s, GiveBack(s, w, p, job, cause, deferred), id)
  {
  }

  lemma ReviveTargets(s: State, p: nat, job: Job, id: string)
    requires p < |s.procs| && job.id != id
    ensures Alike(s, ReviveDead(s, p, job), id)
  {
  }

  lemma AdmissionTargets(s: State, env: Setup, p: nat, event: Event, now: Time, pc: PC, id: string)
    requires p < |s.procs| && pc.AtRollback?
    ensures env.idOf(event.key) != id ==> Alike(s, Reserve(s, env, p, event, now), id)
    ensures env.idOf(pc.event.key) != id ==> Alike(s, Rollback(s, env, p, pc), id)
  {
  }

  datatype Note = Note(id: string, event: Event, transition: DeliveryState, at: Time, inc: nat)

  /** The entry a process writes by its next call. */
  function Owed(env: Setup, pc: PC): Option<Note> {
    match pc
    case AtJournalDelivered(job) => Some(Note(job.id, job.lease.event, Delivered, job.now, job.inc))
    case AtJournalDead(job) => Some(Note(job.id, job.lease.event, Dead, job.now, job.inc))
    case AtJournalPending(job, _) => Some(Note(job.id, job.lease.event, Pending, job.now, job.inc))
    case AtAdmit(event, now, inc) => Some(Note(env.idOf(event.key), event, Pending, now, inc))
    case AtJournalUndo(event, now, inc) => Some(Note(env.idOf(event.key), event, Dead, now, inc))
    case _ => None
  }

  /** Where the process goes from there. */
  function AfterWriting(pc: PC, reject: bool): PC {
    match pc
    case AtJournalDead(job) => if reject then AtRevive(job) else Idle
    case AtJournalPending(job, ready) => if reject then Idle else AtSchedule(job.id, ready)
    case AtAdmit(event, now, inc) => if reject then AtRollback(event, now, inc, false) else AtEnqueue(event, now, inc)
    case _ => Idle
  }

  /** Such a call writes its entry, unless the journal rejects it, and does nothing else but move on. */
  lemma CallWrites(s: State, env: Setup, w: Worker, p: nat, next: Option<string>, failure: Option<string>, reject: bool)
    requires p < |s.procs| && Owed(env, s.procs[p]).Some?
    ensures var n := Owed(env, s.procs[p]).value;
            Advance(s, env, w, p, next, failure, reject) ==
            Moved(Written(s, reject, n.id, n.event, n.transition, n.at, n.inc), p, AfterWriting(s.procs[p], reject))
  {
  }

  lemma WritingTargets(s: State, env: Setup, w: Worker, p: nat, next: Option<string>, failure: Option<string>,
                       reject: bool, id: string)
    requires p < |s.procs| && Owed(env, s.procs[p]).Some?
    ensures Alike(s, Advance(s, env, w, p, next, failure, reject), id)
  {
    CallWrites(s, env, w, p, next, failure, reject);
  }

  /** A call changes the record of its target and of no other delivery. */
  lemma OthersAlike(s: State, env: Setup, p: nat, next: Option<string>, failure: Option<string>, reject: bool,
                    id: string)
    requires Shaped(s, env) && p < |s.procs| && ProcessAt(s, env, p) && Target(env, s.procs[p]) != Some(id)
    ensures Alike(s, Advance(s, env, env.workers[p], p, next, failure, reject), id)
  {
    var pc, w := s.procs[p], env.workers[p];
    if Quiet(pc) {
      QuietlyAdvances(s, env, p, next, failure, reject);
    } else if Owed(env, pc).Some? {
      WritingTargets(s, env, w, p, next, failure, reject, id);
    } else if pc.AtAcquire? {
      AcquireTargets(s, w, p, pc.forced, pc.key, pc.now, id);
    } else if pc.AtReserve? {
      AdmissionTargets(s, env, p, pc.event, pc.now, AtRollback(pc.event, pc.now, 0, false), id);
    } else if pc.AtRollback? {
      AdmissionTargets(s, env, p, pc.event, pc.now, pc, id);
    } else if pc.AtComplete? {
      CompleteTargets(s, w, p, pc.job, id);
    } else if pc.AtRevive? {
      ReviveTargets(s, p, pc.job, id);
    } else if pc.AtDead? {
      KillTargets(s, w, p, pc.job, pc.cause, id);
    } else if pc.AtRetry? {
      GiveBackTargets(s, w, p, pc.job, pc.cause, pc.deferred, id);
    }
  }

  lemma OutsideAlike(s: State, env: Setup, a: Action, id: string)
    requires !a.Go? || a.p >= |s.procs|
    ensures Alike(s, Exec(s, env, a), id)
  {
  }
}
